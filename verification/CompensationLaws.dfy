/** What a compensation run guarantees: conservation, composition, and when the world is back
    to what it was. */
module CompensationLaws {
  import opened Json
  import opened Contracts
  import opened AuditLedger
  import opened ExecutionResults
  import opened Compensation

  // ---------- what becomes of one plan ----------

  /** The plan's effect took place and there is a way to undo it. */
  predicate ToUndo<W>(p: Plan<W>) {
    p.execution.succeeded && p.effectType in {Reversible, Compensatable, Stageable} && p.compensator.Some?
  }

  /** The plan's effect took place and there is no way to undo it. */
  predicate ToReport<W>(p: Plan<W>) {
    && p.execution.succeeded
    && (|| p.effectType.Irreversible?
        || (p.effectType in {Reversible, Compensatable, Stageable} && p.compensator.None?))
  }

  /** The plan did not take effect, or its effect asks for nothing. */
  predicate ToSkip<W>(p: Plan<W>) { !p.execution.succeeded || p.effectType in {ReadOnly, Idempotent} }

  lemma OneOfThree<W>(p: Plan<W>)
    ensures ToUndo(p) ==> !ToReport(p) && !ToSkip(p)
    ensures ToReport(p) ==> !ToSkip(p)
    ensures ToUndo(p) || ToReport(p) || ToSkip(p)
    ensures ToUndo(p) <==> ClassOf(p).Attempted?
    ensures ToReport(p) <==> ClassOf(p).Lasting? || ClassOf(p).Uncovered?
  {
  }

  /** An event about one execution, under its transaction. */
  predicate Notes(entries: seq<Entry>, e: ExecutionResult, kind: EventKind) {
    entries == [Entry(e.transactionId, kind, Some(e.intentId), Some(e.transactionId), NoDetails)]
  }

  /** A plan that is not undone leaves the world alone; an effect that lasts is reported. */
  lemma NotUndone<W>(p: Plan<W>, w: W, stamp: Stamp)
    ensures var e, did := p.execution, Handle(p, w, stamp);
      !ToUndo(p) ==>
        && did.world == w && did.results == [] && !did.raised
        && did.uncompensated == (if ToReport(p) then [e] else [])
        && (!e.succeeded ==> did.entries == [])
        && (e.succeeded && p.effectType.ReadOnly? ==> Notes(did.entries, e, SkippedReadOnly))
        && (e.succeeded && p.effectType.Idempotent? ==> Notes(did.entries, e, SkippedUncompensatable))
        && (e.succeeded && p.effectType.Irreversible? ==> Notes(did.entries, e, IrreversibleEffect))
        && (ToReport(p) && !p.effectType.Irreversible? ==> Notes(did.entries, e, MissingCompensator))
  {
  }

  /** A plan that is undone has its compensator called once, in the world at hand, and its result
      and its two events tell what the compensator did. */
  lemma Undone<W>(p: Plan<W>, w: W, stamp: Stamp)
    requires ToUndo(p)
    ensures var e, did, (after, output) := p.execution, Handle(p, w, stamp), p.compensator.value(w);
      var attempted :=
        Entry(e.transactionId, CompensationAttempted, Some(e.intentId), Some(e.transactionId), NoDetails);
      && did.world == after && did.uncompensated == []
      && (did.raised <==> stamp.startedAt > stamp.completedAt || (output.Some? && !IsJson(output.value)))
      && (did.raised ==> did.results == [] && did.entries == [attempted])
      && (!did.raised ==>
            && did.entries == [attempted,
                               Entry(e.transactionId,
                                     if output.Some? then CompensationSucceeded else CompensationFailed,
                                     Some(e.intentId), Some(e.transactionId), OfCompensation(stamp.compensationId))]
            && |did.results| == 1 && Tells(did.results[0], e, stamp, output))
  {
    ResultTells(p.execution, stamp, p.compensator.value(w).1);
  }

  lemma ResultTells(e: ExecutionResult, stamp: Stamp, output: Option<Value>)
    ensures Tells(ResultFor(e, stamp, output), e, stamp, output)
  {
  }

  /** The result of one attempt, field by field. */
  predicate Tells(r: CompensationResult, e: ExecutionResult, stamp: Stamp, output: Option<Value>) {
    && r.compensationId == stamp.compensationId && r.startedAt == stamp.startedAt && r.completedAt == stamp.completedAt
    && ResultFits(r, e)
    && match output
       case Some(v) => r.succeeded && r.output == v && r.error.None?
       case None =>
         !r.succeeded && r.output.Null?
         && r.error == Some(FailureDetail("compensation_failed", "Compensator raised an exception."))
  }

  predicate ResultFits(r: CompensationResult, e: ExecutionResult) {
    r.executionId == e.executionId && r.transactionId == e.transactionId && r.intentId == e.intentId
  }

  /** A run for a failed execution is opened and, if it returns, closed by an event under that
      execution's transaction; any other run is not. */
  lemma RunIsFramed(failed: Option<ExecutionResult>, summary: Option<Summary>)
    ensures failed.None? ==> OpeningEntries(failed) == [] && ClosingEntries(failed, summary) == []
    ensures summary.None? ==> ClosingEntries(failed, summary) == []
    ensures failed.Some? ==>
      var e := failed.value;
      && OpeningEntries(failed) == [Entry(e.transactionId, CompensationStarted, Some(e.intentId),
                                          Some(e.transactionId), OfCompensation(e.executionId))]
      && (summary.Some? ==>
            ClosingEntries(failed, summary)
            == [Entry(e.transactionId, CompensationCompleted, Some(e.intentId), Some(e.transactionId),
                      OfCompensation(match summary.value.status
                                     case NotRequired => "not_required"
                                     case Compensated => "compensated"
                                     case PartiallyCompensated => "partially_compensated"
                                     case Failed => "failed"))])
  {
  }

  // ---------- every plan lands in exactly one list ----------

  /** The executions to undo, in order. */
  function Undoing<W>(plans: seq<Plan<W>>): seq<ExecutionResult> {
    if plans == [] then []
    else
      var n := |plans| - 1;
      Undoing(plans[..n]) + (if ToUndo(plans[n]) then [plans[n].execution] else [])
  }

  /** The executions that stay in effect, in order. */
  function Standing<W>(plans: seq<Plan<W>>): seq<ExecutionResult> {
    if plans == [] then []
    else
      var n := |plans| - 1;
      Standing(plans[..n]) + (if ToReport(plans[n]) then [plans[n].execution] else [])
  }

  function SkippedOnes<W>(plans: seq<Plan<W>>): seq<ExecutionResult> {
    if plans == [] then []
    else
      var n := |plans| - 1;
      SkippedOnes(plans[..n]) + (if ToSkip(plans[n]) then [plans[n].execution] else [])
  }

  function AllExecutions<W>(plans: seq<Plan<W>>): multiset<ExecutionResult> {
    if plans == [] then multiset{}
    else AllExecutions(plans[..|plans| - 1]) + multiset{plans[|plans| - 1].execution}
  }

  function Reversed<T>(s: seq<T>): seq<T> { seq(|s|, i requires 0 <= i < |s| => s[|s| - 1 - i]) }

  lemma ReversedSnoc<T>(s: seq<T>, x: T)
    ensures Reversed(s + [x]) == [x] + Reversed(s) && Reversed(s + []) == Reversed(s)
  {
    assert s + [] == s;
  }

  /** Each result is that of an attempted execution. */
  predicate ResultsOf(results: seq<CompensationResult>, executions: seq<ExecutionResult>) {
    |results| == |executions| && forall i | 0 <= i < |results| :: ResultFits(results[i], executions[i])
  }

  lemma {:induction false} AttemptsReversed<W>(plans: seq<Plan<W>>, stamps: seq<Stamp>, w: W)
    requires |stamps| == |plans| && !Unwind(plans, stamps, w).raised
    ensures ResultsOf(Unwind(plans, stamps, w).results, Reversed(Undoing(plans)))
  {
    if plans != [] {
      var n := |plans| - 1;
      var last := Handle(plans[n], w, stamps[n]);
      AttemptsReversed(plans[..n], stamps[..n], last.world);
      ReversedSnoc(Undoing(plans[..n]), plans[n].execution);
      var own := if ToUndo(plans[n]) then [plans[n].execution] else [];
      var rest := Unwind(plans[..n], stamps[..n], last.world);
      ResultsJoin(last.results, rest.results, own, Reversed(Undoing(plans[..n])));
    }
  }

  lemma ResultsJoin(a: seq<CompensationResult>, b: seq<CompensationResult>, c: seq<ExecutionResult>,
                    d: seq<ExecutionResult>)
    requires ResultsOf(a, c) && ResultsOf(b, d)
    ensures ResultsOf(a + b, c + d) && [] + d == d
  {
    forall i | 0 <= i < |a + b| ensures ResultFits((a + b)[i], (c + d)[i]) {
      if i >= |a| { assert ResultFits(b[i - |a|], d[i - |a|]); }
    }
  }

  lemma {:induction false} StandingReversed<W>(plans: seq<Plan<W>>, stamps: seq<Stamp>, w: W)
    requires |stamps| == |plans| && !Unwind(plans, stamps, w).raised
    ensures Unwind(plans, stamps, w).uncompensated == Reversed(Standing(plans))
  {
    if plans != [] {
      var n := |plans| - 1;
      StandingReversed(plans[..n], stamps[..n], Handle(plans[n], w, stamps[n]).world);
      ReversedSnoc(Standing(plans[..n]), plans[n].execution);
    }
  }

  lemma {:induction false} NoPlanLost<W>(plans: seq<Plan<W>>)
    ensures multiset(Undoing(plans)) + multiset(Standing(plans)) + multiset(SkippedOnes(plans))
         == AllExecutions(plans)
  {
    if plans != [] {
      NoPlanLost(plans[..|plans| - 1]);
      OneOfThree(plans[|plans| - 1]);
    }
  }

  /** In a run that returns, the result list is the attempted plans in reverse, and the
      uncompensated list the plans left standing in reverse; together with the skipped ones they
      are all the plans, once each. */
  lemma EveryPlanOnce<W>(plans: seq<Plan<W>>, stamps: seq<Stamp>, w: W)
    requires |stamps| == |plans|
    ensures var did := Unwind(plans, stamps, w);
      !did.raised ==>
        && ResultsOf(did.results, Reversed(Undoing(plans)))
        && did.uncompensated == Reversed(Standing(plans))
    ensures multiset(Undoing(plans)) + multiset(Standing(plans)) + multiset(SkippedOnes(plans))
         == AllExecutions(plans)
  {
    if !Unwind(plans, stamps, w).raised {
      AttemptsReversed(plans, stamps, w);
      StandingReversed(plans, stamps, w);
    }
    NoPlanLost(plans);
  }

  predicate AllBuildable(rs: seq<CompensationResult>) { forall r | r in rs :: r.Buildable() }

  /** Every result of every run, also of one that raised, is one that can be built. */
  lemma {:induction false} ResultsAreBuilt<W>(plans: seq<Plan<W>>, stamps: seq<Stamp>, w: W)
    requires |stamps| == |plans|
    ensures AllBuildable(Unwind(plans, stamps, w).results)
  {
    if plans != [] {
      var n := |plans| - 1;
      ResultsAreBuilt(plans[..n], stamps[..n], Handle(plans[n], w, stamps[n]).world);
    }
  }

  // ---------- the audit trail agrees with the summary ----------

  function Count(entries: seq<Entry>, kind: EventKind): nat {
    if entries == [] then 0 else (if entries[0].kind == kind then 1 else 0) + Count(entries[1..], kind)
  }

  function Outcomes(rs: seq<CompensationResult>, succeeded: bool): nat {
    if rs == [] then 0 else (if rs[0].succeeded == succeeded then 1 else 0) + Outcomes(rs[1..], succeeded)
  }

  lemma {:induction false} CountOver(a: seq<Entry>, b: seq<Entry>, kind: EventKind)
    ensures Count(a + b, kind) == Count(a, kind) + Count(b, kind)
  {
    if a == [] {
      assert a + b == b;
    } else {
      assert (a + b)[1..] == a[1..] + b;
      CountOver(a[1..], b, kind);
    }
  }

  lemma {:induction false} OutcomesOver(a: seq<CompensationResult>, b: seq<CompensationResult>, succeeded: bool)
    ensures Outcomes(a + b, succeeded) == Outcomes(a, succeeded) + Outcomes(b, succeeded)
  {
    if a == [] {
      assert a + b == b;
    } else {
      assert (a + b)[1..] == a[1..] + b;
      OutcomesOver(a[1..], b, succeeded);
    }
  }

  /** One attempt on record for each result, and one more if the run raised. */
  predicate AttemptsAgree<W>(did: Progress<W>) {
    Count(did.entries, CompensationAttempted) == |did.results| + (if did.raised then 1 else 0)
  }

  predicate OutcomesAgree<W>(did: Progress<W>, succeeded: bool) {
    Count(did.entries, if succeeded then CompensationSucceeded else CompensationFailed)
    == Outcomes(did.results, succeeded)
  }

  predicate StandingAgrees<W>(did: Progress<W>) {
    Count(did.entries, IrreversibleEffect) + Count(did.entries, MissingCompensator) == |did.uncompensated|
  }

  /** One event of the kind for each item of the lists. */
  predicate TrailAgrees<W>(did: Progress<W>) {
    AttemptsAgree(did) && OutcomesAgree(did, true) && OutcomesAgree(did, false) && StandingAgrees(did)
  }

  lemma CountOne(a: Entry, kind: EventKind)
    ensures Count([a], kind) == if a.kind == kind then 1 else 0
  {
    assert [a][1..] == [];
  }

  lemma CountTwo(a: Entry, b: Entry)
    ensures forall kind :: Count([a, b], kind) == (if a.kind == kind then 1 else 0) + (if b.kind == kind then 1 else 0)
  {
    forall kind ensures Count([a, b], kind) == (if a.kind == kind then 1 else 0) + (if b.kind == kind then 1 else 0) {
      assert [a, b][1..] == [b];
      CountOne(b, kind);
    }
  }

  lemma OutcomesOne(r: CompensationResult, succeeded: bool)
    ensures Outcomes([r], succeeded) == if r.succeeded == succeeded then 1 else 0
  {
    assert [r][1..] == [];
  }

  lemma OneEntryAgrees<W>(did: Progress<W>)
    requires |did.entries| == 1 && did.results == []
    requires var kind := did.entries[0].kind;
      && (kind == CompensationAttempted <==> did.raised) && kind != CompensationSucceeded && kind != CompensationFailed
      && |did.uncompensated| == if kind == IrreversibleEffect || kind == MissingCompensator then 1 else 0
    ensures TrailAgrees(did)
  {
    forall kind ensures Count(did.entries, kind) == if did.entries[0].kind == kind then 1 else 0 {
      CountOne(did.entries[0], kind);
    }
  }

  lemma AttemptAgrees<W>(e: ExecutionResult, w: W, output: Option<Value>, stamp: Stamp)
    ensures TrailAgrees(AttemptProgress(e, w, output, stamp))
  {
    var did := AttemptProgress(e, w, output, stamp);
    if did.raised {
      OneEntryAgrees(did);
    } else {
      CountTwo(did.entries[0], did.entries[1]);
      OutcomesOne(did.results[0], true);
      OutcomesOne(did.results[0], false);
    }
  }

  lemma HandledAgrees<W>(p: Plan<W>, w: W, stamp: Stamp)
    ensures TrailAgrees(Handle(p, w, stamp))
  {
    var did := Handle(p, w, stamp);
    match ClassOf(p)
    case Attempted =>
      var (after, output) := p.compensator.value(w);
      AttemptAgrees(p.execution, after, output, stamp);
    case NotExecuted =>
    case _ => OneEntryAgrees(did);
  }

  lemma AttemptsAdd<W>(a: Progress<W>, b: Progress<W>)
    requires !a.raised && AttemptsAgree(a) && AttemptsAgree(b)
    ensures AttemptsAgree(Then(a, b))
  {
    CountOver(a.entries, b.entries, CompensationAttempted);
  }

  lemma OutcomesAdd<W>(a: Progress<W>, b: Progress<W>, succeeded: bool)
    requires !a.raised && OutcomesAgree(a, succeeded) && OutcomesAgree(b, succeeded)
    ensures OutcomesAgree(Then(a, b), succeeded)
  {
    CountOver(a.entries, b.entries, if succeeded then CompensationSucceeded else CompensationFailed);
    OutcomesOver(a.results, b.results, succeeded);
  }

  lemma StandingAdds<W>(a: Progress<W>, b: Progress<W>)
    requires !a.raised && StandingAgrees(a) && StandingAgrees(b)
    ensures StandingAgrees(Then(a, b))
  {
    CountOver(a.entries, b.entries, IrreversibleEffect);
    CountOver(a.entries, b.entries, MissingCompensator);
  }

  lemma ThenAgrees<W>(a: Progress<W>, b: Progress<W>)
    requires TrailAgrees(a) && TrailAgrees(b)
    ensures TrailAgrees(Then(a, b))
  {
    if !a.raised {
      AttemptsAdd(a, b);
      OutcomesAdd(a, b, true);
      OutcomesAdd(a, b, false);
      StandingAdds(a, b);
    }
  }

  /** The audit trail records each attempt, each outcome and each effect left standing exactly
      as often as the summary lists it. */
  lemma {:induction false} TrailMatchesSummary<W>(plans: seq<Plan<W>>, stamps: seq<Stamp>, w: W)
    requires |stamps| == |plans|
    ensures TrailAgrees(Unwind(plans, stamps, w))
  {
    if plans != [] {
      var n := |plans| - 1;
      var last := Handle(plans[n], w, stamps[n]);
      HandledAgrees(plans[n], w, stamps[n]);
      TrailMatchesSummary(plans[..n], stamps[..n], last.world);
      ThenAgrees(last, Unwind(plans[..n], stamps[..n], last.world));
    }
  }

  // ---------- composition ----------

  /** Compensating P followed by Q handles Q first, then P in the world Q leaves. */
  lemma {:induction false} UnwindAppend<W>(p: seq<Plan<W>>, q: seq<Plan<W>>, sp: seq<Stamp>, sq: seq<Stamp>, w: W)
    requires |sp| == |p| && |sq| == |q|
    ensures var second := Unwind(q, sq, w);
      Unwind(p + q, sp + sq, w) == Then(second, Unwind(p, sp, second.world))
    decreases |q|
  {
    if q == [] {
      assert p + q == p && sp + sq == sp;
      ThenNothing(w, Unwind(p, sp, w));
    } else {
      var n := |q| - 1;
      var last := Handle(q[n], w, sq[n]);
      assert (p + q)[..|p| + n] == p + q[..n] && (sp + sq)[..|p| + n] == sp + sq[..n];
      UnwindAppend(p, q[..n], sp, sq[..n], last.world);
      var rest := Unwind(q[..n], sq[..n], last.world);
      ThenAssociates(last, rest, Unwind(p, sp, rest.world));
    }
  }

  lemma Rejoined<T>(s: seq<T>, k: nat)
    requires k <= |s|
    ensures s[..k] + s[k..] == s
  {
  }

  lemma UnwindSplit<W>(plans: seq<Plan<W>>, stamps: seq<Stamp>, w: W, k: nat)
    requires |stamps| == |plans| && k <= |plans|
    ensures var later := Unwind(plans[k..], stamps[k..], w);
      Unwind(plans, stamps, w) == Then(later, Unwind(plans[..k], stamps[..k], later.world))
  {
    Rejoined(plans, k);
    Rejoined(stamps, k);
    UnwindAppend(plans[..k], plans[k..], stamps[..k], stamps[k..], w);
  }

  /** How the outcomes of two stretches combine. */
  function Merge(a: Status, b: Status): Status {
    if a.NotRequired? then b else if b.NotRequired? then a else if a == b then a else PartiallyCompensated
  }

  predicate AnySucceeded(rs: seq<CompensationResult>) { exists i :: 0 <= i < |rs| && rs[i].succeeded }

  predicate AnyFailed(rs: seq<CompensationResult>) { exists i :: 0 <= i < |rs| && !rs[i].succeeded }

  /** Each status means one thing about successes and about failures or effects left standing. */
  lemma StatusMeans(rs: seq<CompensationResult>, u: seq<ExecutionResult>)
    ensures var good, bad := AnySucceeded(rs), AnyFailed(rs) || u != [];
      && (StatusOf(rs, u).NotRequired? <==> !good && !bad)
      && (StatusOf(rs, u).Compensated? <==> good && !bad)
      && (StatusOf(rs, u).PartiallyCompensated? <==> good && bad)
      && (StatusOf(rs, u).Failed? <==> !good && bad)
  {
    if rs != [] { assert rs[0].succeeded || !rs[0].succeeded; }
  }

  lemma AnyOver(a: seq<CompensationResult>, b: seq<CompensationResult>)
    ensures AnySucceeded(a + b) <==> AnySucceeded(a) || AnySucceeded(b)
    ensures AnyFailed(a + b) <==> AnyFailed(a) || AnyFailed(b)
  {
    forall i | 0 <= i < |a| ensures (a + b)[i] == a[i] {}
    forall i | 0 <= i < |b| ensures (a + b)[|a| + i] == b[i] {}
  }

  /** Compensating two lists of plans together returns exactly if handling each in turn does, and
      then has the lists one after the other and the merged status. */
  lemma CompensationComposes<W>(p: seq<Plan<W>>, q: seq<Plan<W>>, sp: seq<Stamp>, sq: seq<Stamp>, w: W)
    requires |sp| == |p| && |sq| == |q|
    ensures var second := Unwind(q, sq, w);
      var first := Unwind(p, sp, second.world);
      var whole := SummaryIf(Unwind(p + q, sp + sq, w));
      && (whole.Some? <==> !second.raised && !first.raised)
      && (whole.Some? ==>
            && whole.value.results == second.results + first.results
            && whole.value.uncompensated == second.uncompensated + first.uncompensated
            && whole.value.status == Merge(SummaryOf(second).status, SummaryOf(first).status))
  {
    var second := Unwind(q, sq, w);
    var first := Unwind(p, sp, second.world);
    UnwindAppend(p, q, sp, sq, w);
    AnyOver(second.results, first.results);
    StatusMeans(second.results, second.uncompensated);
    StatusMeans(first.results, first.uncompensated);
    StatusMeans(second.results + first.results, second.uncompensated + first.uncompensated);
  }

  // ---------- when a run raises ----------

  /** The world in which a plan is handled, if the run gets to it. */
  function WorldAt<W>(plans: seq<Plan<W>>, stamps: seq<Stamp>, w: W, i: nat): W
    requires |stamps| == |plans| && i < |plans|
  {
    Unwind(plans[i + 1..], stamps[i + 1..], w).world
  }

  /** The attempt's result can be built: its clock ran forwards, and its compensator raised or
      answered JSON. */
  predicate Recordable<W>(p: Plan<W>, w: W, stamp: Stamp) {
    ToUndo(p) ==>
      var output := p.compensator.value(w).1;
      stamp.startedAt <= stamp.completedAt && (output.None? || IsJson(output.value))
  }

  predicate AllRecordable<W>(plans: seq<Plan<W>>, stamps: seq<Stamp>, w: W)
    requires |stamps| == |plans|
  {
    forall i | 0 <= i < |plans| :: Recordable(plans[i], WorldAt(plans, stamps, w, i), stamps[i])
  }

  lemma HandleRaises<W>(p: Plan<W>, w: W, stamp: Stamp)
    ensures Handle(p, w, stamp).raised <==> !Recordable(p, w, stamp)
  {
  }

  lemma FirstPlanLast<W>(plans: seq<Plan<W>>, stamps: seq<Stamp>, w: W)
    requires |stamps| == |plans| && plans != []
    ensures var later := Unwind(plans[1..], stamps[1..], w);
      Unwind(plans, stamps, w) == Then(later, Handle(plans[0], later.world, stamps[0]))
  {
    var p, sp := plans[..1], stamps[..1];
    UnwindSplit(plans, stamps, w, 1);
    var later := Unwind(plans[1..], stamps[1..], w);
    assert p[..0] == [] && sp[..0] == [];
    var handled := Handle(plans[0], later.world, stamps[0]);
    ThenNothing(handled.world, handled);
  }

  lemma LaterRecordable<W>(plans: seq<Plan<W>>, stamps: seq<Stamp>, w: W)
    requires |stamps| == |plans| && plans != []
    ensures AllRecordable(plans, stamps, w)
       <==> AllRecordable(plans[1..], stamps[1..], w) && Recordable(plans[0], WorldAt(plans, stamps, w, 0), stamps[0])
  {
    var ps, ss := plans[1..], stamps[1..];
    forall i | 0 <= i < |ps|
      ensures ps[i] == plans[i + 1] && WorldAt(ps, ss, w, i) == WorldAt(plans, stamps, w, i + 1)
    {
      assert ps[i + 1..] == plans[i + 2..] && ss[i + 1..] == stamps[i + 2..];
    }
    if AllRecordable(plans, stamps, w) {
      forall i | 0 <= i < |ps| ensures Recordable(ps[i], WorldAt(ps, ss, w, i), ss[i]) {
        assert Recordable(plans[i + 1], WorldAt(plans, stamps, w, i + 1), stamps[i + 1]);
      }
    }
    if AllRecordable(ps, ss, w) {
      forall i | 1 <= i < |plans| ensures Recordable(plans[i], WorldAt(plans, stamps, w, i), stamps[i]) {
        assert Recordable(ps[i - 1], WorldAt(ps, ss, w, i - 1), ss[i - 1]);
      }
    }
  }

  /** `compensate` returns a summary exactly if every attempt's result can be built. */
  lemma {:induction false} ReturnsExactly<W>(plans: seq<Plan<W>>, stamps: seq<Stamp>, w: W)
    requires |stamps| == |plans|
    ensures SummaryIf(Unwind(plans, stamps, w)).Some? <==> AllRecordable(plans, stamps, w)
    decreases |plans|
  {
    if plans != [] {
      ReturnsExactly(plans[1..], stamps[1..], w);
      FirstPlanLast(plans, stamps, w);
      LaterRecordable(plans, stamps, w);
      HandleRaises(plans[0], WorldAt(plans, stamps, w, 0), stamps[0]);
    }
  }

  /** A run that raises ends there: the plans before are not handled at all, so the world, the
      results and the audit trail are those of the later plans alone. */
  lemma RaiseEndsRun<W>(plans: seq<Plan<W>>, stamps: seq<Stamp>, w: W, k: nat)
    requires |stamps| == |plans| && k <= |plans| && Unwind(plans[k..], stamps[k..], w).raised
    ensures Unwind(plans, stamps, w) == Unwind(plans[k..], stamps[k..], w)
  {
    UnwindSplit(plans, stamps, w, k);
  }

  // ---------- when the world is back ----------

  /** The worlds the plans went through, each attempted plan's compensator undoing, when it
      succeeds, exactly its own plan's step, and each skipped plan having changed nothing. */
  predicate Undoable<W(==)>(plans: seq<Plan<W>>, history: seq<W>) {
    && |history| == |plans| + 1
    && forall i | 0 <= i < |plans| ::
         && (ToUndo(plans[i]) ==>
               var (before, output) := plans[i].compensator.value(history[i + 1]);
               output.Some? ==> before == history[i])
         && (ToSkip(plans[i]) ==> history[i + 1] == history[i])
  }

  lemma {:induction false} CleanRunRestores<W>(plans: seq<Plan<W>>, stamps: seq<Stamp>, history: seq<W>)
    requires |stamps| == |plans| && Undoable(plans, history)
    requires var did := Unwind(plans, stamps, history[|plans|]);
      !did.raised && !AnyFailed(did.results) && did.uncompensated == []
    ensures Unwind(plans, stamps, history[|plans|]).world == history[0]
    decreases |plans|
  {
    if plans != [] {
      var n := |plans| - 1;
      var last := Handle(plans[n], history[n + 1], stamps[n]);
      var rest := Unwind(plans[..n], stamps[..n], last.world);
      AnyOver(last.results, rest.results);
      OneOfThree(plans[n]);
      LastUndone(plans[n], stamps[n], history[n], history[n + 1]);
      CleanRunRestores(plans[..n], stamps[..n], history[..n + 1]);
    }
  }

  lemma LastUndone<W>(p: Plan<W>, stamp: Stamp, before: W, after: W)
    requires ToSkip(p) ==> after == before
    requires ToUndo(p) ==> var (w, output) := p.compensator.value(after); output.Some? ==> w == before
    requires var did := Handle(p, after, stamp); !did.raised && !AnyFailed(did.results) && did.uncompensated == []
    ensures Handle(p, after, stamp).world == before
  {
    OneOfThree(p);
    if ToUndo(p) {
      assert Handle(p, after, stamp).results[0].succeeded;
    }
  }

  /** A run that returns and reports COMPENSATED or NOT_REQUIRED ends in the world before the
      first plan. */
  lemma RecoveryRestores<W>(plans: seq<Plan<W>>, stamps: seq<Stamp>, history: seq<W>)
    requires |stamps| == |plans| && Undoable(plans, history)
    ensures var did := Unwind(plans, stamps, history[|plans|]);
      var summary := SummaryIf(did);
      summary.Some? && (summary.value.status.Compensated? || summary.value.status.NotRequired?) ==>
        did.world == history[0]
  {
    var did := Unwind(plans, stamps, history[|plans|]);
    StatusMeans(did.results, did.uncompensated);
    if !did.raised && (SummaryOf(did).status.Compensated? || SummaryOf(did).status.NotRequired?) {
      CleanRunRestores(plans, stamps, history);
    }
  }

  lemma UndoableFrom<W>(plans: seq<Plan<W>>, history: seq<W>, k: nat)
    requires Undoable(plans, history) && k <= |plans|
    ensures Undoable(plans[k..], history[k..])
  {
  }

  /** Whatever happens before plan k is reached, if the plans from k on leave nothing standing
      and none of their compensators raises, plan k - 1 is handled in the very world that it
      left: trouble early in the list never spoils what was undone after it. */
  lemma SuffixRestores<W>(plans: seq<Plan<W>>, stamps: seq<Stamp>, history: seq<W>, k: nat)
    requires |stamps| == |plans| && Undoable(plans, history) && k <= |plans|
    requires var did := Unwind(plans[k..], stamps[k..], history[|plans|]);
      !did.raised && !AnyFailed(did.results) && did.uncompensated == []
    ensures Unwind(plans, stamps, history[|plans|])
         == Then(Unwind(plans[k..], stamps[k..], history[|plans|]), Unwind(plans[..k], stamps[..k], history[k]))
  {
    UnwindSplit(plans, stamps, history[|plans|], k);
    SuffixClean(plans, stamps, history, k);
  }

  lemma SuffixClean<W>(plans: seq<Plan<W>>, stamps: seq<Stamp>, history: seq<W>, k: nat)
    requires |stamps| == |plans| && Undoable(plans, history) && k <= |plans|
    requires var did := Unwind(plans[k..], stamps[k..], history[|plans|]);
      !did.raised && !AnyFailed(did.results) && did.uncompensated == []
    ensures Unwind(plans[k..], stamps[k..], history[|plans|]).world == history[k]
  {
    UndoableFrom(plans, history, k);
    var rest, later := plans[k..], history[k..];
    assert later[|rest|] == history[|plans|] && later[0] == history[k];
    CleanRunRestores(rest, stamps[k..], later);
  }

  /** The hypothesis on skipped plans cannot be dropped: an idempotent write that took the world
      from 0 to 1 is skipped, the run reports that nothing was required, and the write stays. */
  lemma SkippedWriteStays(e: ExecutionResult, stamp: Stamp)
    requires e.succeeded
    ensures var plans: seq<Plan<int>>, history := [Plan(e, Idempotent, None)], [0, 1];
      var did := Unwind(plans, [stamp], history[1]);
      && !Undoable(plans, history)
      && SummaryIf(did).Some? && SummaryOf(did).status.NotRequired? && did.world == history[1] != history[0]
  {
    var plans: seq<Plan<int>> := [Plan(e, Idempotent, None)];
    assert plans[..0] == [];
    assert ToSkip(plans[0]);
  }

  /** Nor does a raising compensator put the world back: it may have changed it half way. */
  lemma RaisingCompensatorMayLeaveAnything(e: ExecutionResult, stamp: Stamp, mess: int)
    requires e.succeeded && stamp.startedAt <= stamp.completedAt
    ensures var plans := [Plan(e, Reversible, Some((w: int) => (mess, None)))];
      var did := Unwind(plans, [stamp], 1);
      && Undoable(plans, [0, 1])
      && SummaryIf(did).Some? && SummaryOf(did).status.Failed? && did.world == mess
  {
    var plans := [Plan(e, Reversible, Some((w: int) => (mess, None)))];
    assert plans[..0] == [];
    assert !Unwind(plans, [stamp], 1).results[0].succeeded;
  }

  /** A compensator that undoes its plan but answers something that is not JSON makes the run
      raise, with the plans before it left as they are. */
  lemma OpaqueAnswerEndsRun(e: ExecutionResult, before: Plan<int>, stamps: seq<Stamp>)
    requires e.succeeded && |stamps| == 2
    ensures var plans := [before, Plan(e, Reversible, Some((w: int) => (w - 1, Some(Opaque))))];
      var did := Unwind(plans, stamps, 2);
      SummaryIf(did).None? && did.world == 1 && did.results == [] && did.uncompensated == []
  {
    var plans := [before, Plan(e, Reversible, Some((w: int) => (w - 1, Some(Opaque))))];
    HandleRaises(plans[1], 2, stamps[1]);
  }
}
