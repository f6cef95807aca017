/** Calls made one after the other, as special runs of the concurrent system. */
module SequentialCalls {
  import opened Json
  import opened Idempotency
  import opened ExecutionResults
  import opened Pipeline
  import opened CallInvariant
  import opened ConcurrentRuntime
  import opened RuntimeSafety
  import opened MemoTable
  import opened Runtime

  // ---------- running alone is one of the schedules ----------

  function Solo(t: Tid, n: nat): seq<Move> { if n == 0 then [] else [Turn(t)] + Solo(t, n - 1) }

  /** The state after one call has run to its end on its own. */
  function AfterAlone(s: State, t: Tid): State
    requires t in s.threads
  {
    var (sh, l) := RunAlone(s.shared, s.threads[t].call, s.threads[t].local, t);
    Put(s, t, sh, l)
  }

  lemma TurnThenAlone(s: State, t: Tid)
    requires t in s.threads && !Finished(s.threads[t].local)
    ensures t in Do(s, Turn(t)).threads && AfterAlone(Do(s, Turn(t)), t) == AfterAlone(s, t)
  {
  }

  lemma DoneAlone(s: State, t: Tid)
    requires t in s.threads && Finished(s.threads[t].local)
    ensures AfterAlone(s, t) == s && Do(s, Turn(t)) == s
  {
    FinishedStays(s.shared, s.threads[t].call, s.threads[t].local, t);
  }

  lemma SoloStep(s: State, t: Tid, n: nat)
    requires n > 0
    ensures Run(s, Solo(t, n)) == Run(Do(s, Turn(t)), Solo(t, n - 1))
  {
    assert Solo(t, n)[1..] == Solo(t, n - 1);
  }

  /** What `Execute` computes is the concurrent system under the schedule that gives this one
      call all its turns in a row; so every theorem about all schedules applies to it. */
  lemma {:induction false} AloneIsASchedule(s: State, t: Tid, n: nat)
    requires t in s.threads && n >= StepsLeft(s.threads[t].call, s.threads[t].local.pc)
    ensures Run(s, Solo(t, n)) == AfterAlone(s, t) && Finished(AfterAlone(s, t).threads[t].local)
    decreases n
  {
    if n > 0 { SoloStep(s, t, n); }
    if Finished(s.threads[t].local) {
      DoneAlone(s, t);
      if n > 0 { AloneIsASchedule(s, t, n - 1); }
    } else {
      TurnAdvances(s.shared, s.threads[t].call, s.threads[t].local, t);
      TurnThenAlone(s, t);
      AloneIsASchedule(Do(s, Turn(t)), t, n - 1);
    }
  }

  /** The method's contract in terms of the concurrent system: under the schedule that gives the
      call all its turns in a row, the system ends up with what the method leaves, and the call
      returns what the method returns. */
  lemma OutcomeIsASchedule(s: State, t: Tid, sh: Shared, r: Option<ExecutionResult>)
    requires t in s.threads && Outcome(s.shared, s.threads[t].call, s.threads[t].local, t, sh, r)
    ensures AfterAlone(s, t) == Run(s, Solo(t, StepsLeft(s.threads[t].call, s.threads[t].local.pc)))
    ensures AfterAlone(s, t).shared == sh && r == Returned(s.threads[t].call, AfterAlone(s, t).threads[t].local)
  {
    AloneIsASchedule(s, t, StepsLeft(s.threads[t].call, s.threads[t].local.pc));
    assert RunAlone(s.shared, s.threads[t].call, s.threads[t].local, t).0 == sh;
  }

  lemma AloneInv(s: State, t: Tid)
    requires Inv(s) && t in s.threads
    ensures Inv(AfterAlone(s, t)) && Finished(AfterAlone(s, t).threads[t].local)
    ensures Grows(s.shared, AfterAlone(s, t).shared)
  {
    var n := StepsLeft(s.threads[t].call, s.threads[t].local.pc);
    AloneIsASchedule(s, t, n);
    RunInv(s, Solo(t, n));
    RunGrows(s, Solo(t, n));
  }

  /** The system after a call that begins now has run alone. */
  function Called(s: State, t: Tid, c: Call): State { AfterAlone(Joined(s, t, c), t) }

  lemma OneMoreCall(s: State, t: Tid, c: Call)
    requires Inv(s) && t !in s.threads && c.script.Plausible()
    ensures Inv(Called(s, t, c)) && Called(s, t, c).threads.Keys == s.threads.Keys + {t}
  {
    JoinKeeps(s, t, c);
    AloneInv(Joined(s, t, c), t);
  }

  // ---------- what a call run alone finds under its key ----------

  /** The claim this call would be given now. */
  function ClaimNow(sh: Shared, c: Call, k: string): Claim {
    ClaimOf(sh.records, k, c.script.token, c.script.claimedAt)
  }

  /** A turn either leaves the call without a claim and the records alone, or claims. */
  lemma TurnClaims(s: State, t: Tid)
    requires Inv(s) && t in s.threads && s.threads[t].local.claim.None?
    ensures var s', c := Do(s, Turn(t)), s.threads[t].call;
      if s'.threads[t].local.claim.None? then s'.shared.records == s.shared.records
      else
        c.action.idempotencyKey.Some?
        && s'.threads[t].local.claim == Some(ClaimNow(s.shared, c, c.action.idempotencyKey.value))
  {
    TurnReady(s, t);
    var c, l := s.threads[t].call, s.threads[t].local;
    var act := Next(s.shared.registry, c, l);
    ActOkContinues(s.shared.registry, c, l, act);
    PerformClaims(s.shared, c, l, t, act);
  }

  lemma PerformClaims(sh: Shared, c: Call, l: Local, t: Tid, act: Act)
    requires ActContinues(c, l, act) && l.claim.None?
    ensures var (sh', n) := Perform(sh, c, l, t, act);
      if n.claim.None? then sh'.records == sh.records
      else c.action.idempotencyKey.Some? && n.claim == Some(ClaimNow(sh, c, c.action.idempotencyKey.value))
  {
  }

  lemma AloneKeepsClaim(s: State, t: Tid)
    requires Inv(s) && t in s.threads && s.threads[t].local.claim.Some?
    ensures AfterAlone(s, t).threads[t].local.claim == s.threads[t].local.claim
  {
    var n := StepsLeft(s.threads[t].call, s.threads[t].local.pc);
    AloneIsASchedule(s, t, n);
    RunKeepsClaim(s, Solo(t, n), t);
  }

  lemma {:induction false} AloneClaims(s: State, t: Tid)
    requires Inv(s) && t in s.threads && s.threads[t].local.claim.None?
    ensures var c, claim := s.threads[t].call, AfterAlone(s, t).threads[t].local.claim;
      claim.Some? ==>
        c.action.idempotencyKey.Some? && claim == Some(ClaimNow(s.shared, c, c.action.idempotencyKey.value))
    decreases StepsLeft(s.threads[t].call, s.threads[t].local.pc)
  {
    if !Finished(s.threads[t].local) {
      TurnAdvances(s.shared, s.threads[t].call, s.threads[t].local, t);
      TurnKeeps(s, t);
      TurnClaims(s, t);
      TurnThenAlone(s, t);
      var s1 := Do(s, Turn(t));
      if s1.threads[t].local.claim.None? { AloneClaims(s1, t); } else { AloneKeepsClaim(s1, t); }
    }
  }

  // ---------- what a call run alone changes ----------

  lemma {:induction false} AloneMoves(s: State, t: Tid)
    requires Inv(s) && t in s.threads
    ensures var s' := AfterAlone(s, t); var l, n := s.threads[t].local, s'.threads[t].local;
      && (Holds(l) ==> Holds(n)) && (l.ran ==> n.ran)
      && (!Holds(n) ==> s'.shared.records == s.shared.records)
      && (l.ran || !n.ran ==> s'.shared.calls == s.shared.calls)
      && |s'.shared.calls| <= |s.shared.calls| + 1
    decreases StepsLeft(s.threads[t].call, s.threads[t].local.pc)
  {
    if !Finished(s.threads[t].local) {
      TurnAdvances(s.shared, s.threads[t].call, s.threads[t].local, t);
      TurnKeeps(s, t);
      TurnMoves(s, t);
      TurnThenAlone(s, t);
      AloneMoves(Do(s, Turn(t)), t);
    }
  }

  /** What one more call leaves of the others and of the list of handler calls. */
  predicate OneCallApart(s: State, s': State, t: Tid, c: Call) {
    && t in s'.threads && s'.threads[t].call == c
    && |s'.shared.calls| <= |s.shared.calls| + 1
    && (!s'.threads[t].local.ran ==> s'.shared.calls == s.shared.calls)
    && forall u | u in s.threads && u != t :: u in s'.threads && s'.threads[u] == s.threads[u]
  }

  lemma OneMoreMoves(s: State, t: Tid, c: Call)
    requires Inv(s) && t !in s.threads && c.script.Plausible()
    ensures OneCallApart(s, Called(s, t, c), t, c)
  {
    JoinKeeps(s, t, c);
    AloneMoves(Joined(s, t, c), t);
  }

  /** A call that finds its key claimed answers from the record it finds. */
  function FoundAnswer(c: Call, r: Record): Option<ExecutionResult> {
    if r.status.Completed? then Replay(r.result) else Some(Failure(c, KeyInProgress, Null))
  }

  lemma ObserverAnswers(records: Records, c: Call, l: Local, r: Record)
    requires ClaimShape(c, l) && ClaimOk(records, c, l) && Finished(l) && l.claim == Some(Claim(r, false))
    ensures Returned(c, l).Some? && Returned(c, l) == FoundAnswer(c, r)
  {
    if r.status.Completed? { assert Replay(r.result) == Some(l.ending.value.result); }
  }

  /** A call under a key that has a record, whatever its other arguments, that gets to the
      claim: it returns what was stored, or "in progress"; it calls no tool and changes no
      record. */
  lemma UsedKeyAnswers(s: State, t: Tid, k: string)
    requires Inv(s) && t in s.threads && k in s.shared.records
    requires s.threads[t].local.claim.None? && s.threads[t].call.action.idempotencyKey == Some(k)
    ensures var s' := AfterAlone(s, t); var l := s'.threads[t].local;
      l.claim.Some? ==>
        && Returned(s.threads[t].call, l).Some?
        && Returned(s.threads[t].call, l) == FoundAnswer(s.threads[t].call, s.shared.records[k])
        && s'.shared.records == s.shared.records && s'.shared.calls == s.shared.calls
  {
    var s' := AfterAlone(s, t);
    var c, l := s.threads[t].call, s'.threads[t].local;
    AloneClaims(s, t);
    AloneInv(s, t);
    AloneMoves(s, t);
    ClaimFacts(s', t);
    if l.claim.Some? { ObserverAnswers(s'.shared.records, c, l, s.shared.records[k]); }
  }

  /** The first call under a free key that gets to the claim leaves its own result stored, unless
      its result refused the tool's output: then it raises and the key stays in progress. */
  lemma FreeKeyIsKept(s: State, t: Tid, k: string)
    requires Inv(s) && t in s.threads && k !in s.shared.records
    requires s.threads[t].local.claim.None? && s.threads[t].call.action.idempotencyKey == Some(k)
    ensures var s' := AfterAlone(s, t);
      var l, answer := s'.threads[t].local, Returned(s.threads[t].call, s'.threads[t].local);
      l.claim.Some? ==>
        && k in s'.shared.records
        && (Refused(l.pc) ==> answer.None? && s'.shared.records[k].status.InProgress?)
        && (!Refused(l.pc) ==>
              answer.Some? && answer.value.Storable()
              && s'.shared.records[k].status.Completed? && s'.shared.records[k].result == Encode(answer.value))
  {
    var s' := AfterAlone(s, t);
    AloneClaims(s, t);
    AloneInv(s, t);
    if s'.threads[t].local.claim.Some? { FinishedHolder(s', t, k); }
  }

  lemma FinishedHolder(s: State, t: Tid, k: string)
    requires Inv(s) && t in s.threads && Finished(s.threads[t].local) && HoldsKey(s.threads[t], k)
    ensures var c, l := s.threads[t].call, s.threads[t].local;
      && k in s.shared.records
      && (Refused(l.pc) ==> Returned(c, l).None? && s.shared.records[k].status.InProgress?)
      && (!Refused(l.pc) ==>
            Returned(c, l).Some? && Returned(c, l).value.Storable()
            && s.shared.records[k].status.Completed? && s.shared.records[k].result == Encode(Returned(c, l).value))
  {
    HolderOwns(s, t, k);
    ClaimFacts(s, t);
    EndingStorable(s, t);
    CrashedHolder(s, t);
  }

  lemma CrashedHolder(s: State, t: Tid)
    requires ThreadsOk(s) && t in s.threads && Holds(s.threads[t].local)
    ensures s.threads[t].local.pc.Crashed? ==> Refused(s.threads[t].local.pc)
  {
    OwnFacts(s, t);
  }

  /** What the record of a key says about what the call that claimed it returned. */
  ghost predicate Leaves(records: Records, k: string, first: Option<ExecutionResult>) {
    && k in records
    && match first
       case Some(r) => r.Storable() && records[k].status.Completed? && records[k].result == Encode(r)
       case None => records[k].status.InProgress?
  }

  lemma FirstLeaves(s: State, t: Tid, u: Tid, k: string)
    requires Inv(s) && t in s.threads && u in s.threads && t != u && k !in s.shared.records
    requires s.threads[t].local.claim.None? && s.threads[t].call.action.idempotencyKey == Some(k)
    requires AfterAlone(s, t).threads[t].local.claim.Some?
    ensures var s' := AfterAlone(s, t);
      var l, first := s'.threads[t].local, Returned(s.threads[t].call, s'.threads[t].local);
      && Inv(s') && u in s'.threads && s'.threads[u] == s.threads[u]
      && Leaves(s'.shared.records, k, first) && (first.None? ==> Refused(l.pc))
  {
    AloneInv(s, t);
    FreeKeyIsKept(s, t, k);
  }

  lemma AfterFirst(s: State, u: Tid, k: string, first: Option<ExecutionResult>)
    requires Inv(s) && u in s.threads && Leaves(s.shared.records, k, first)
    requires s.threads[u].local.claim.None? && s.threads[u].call.action.idempotencyKey == Some(k)
    ensures var s' := AfterAlone(s, u);
      var c, second := s.threads[u].call, Returned(s.threads[u].call, s'.threads[u].local);
      s'.threads[u].local.claim.Some? ==>
        && s'.shared.calls == s.shared.calls
        && (first.Some? ==> second == Some(Sorted(first.value)) && SameResult(first.value, Sorted(first.value)))
        && (first.None? ==> second == Some(Failure(c, KeyInProgress, Null)))
  {
    UsedKeyAnswers(s, u, k);
    if first.Some? { ReplayEncode(first.value); }
  }

  /** Two calls under one free key, one after the other, both getting to the claim: if the
      first returns, the second returns the first's result; if the first raises over its
      tool's output, the second is told the key is in progress. The tool runs at most once. */
  lemma SecondReturnsFirst(s: State, t: Tid, u: Tid, k: string)
    requires Inv(s) && t in s.threads && u in s.threads && t != u && k !in s.shared.records
    requires s.threads[t].local.claim.None? && s.threads[t].call.action.idempotencyKey == Some(k)
    requires s.threads[u].local.claim.None? && s.threads[u].call.action.idempotencyKey == Some(k)
    ensures var s1 := AfterAlone(s, t);
      var s2 := AfterAlone(s1, u);
      var c, c' := s.threads[t].call, s.threads[u].call;
      var first, second := Returned(c, s1.threads[t].local), Returned(c', s2.threads[u].local);
      s1.threads[t].local.claim.Some? && s2.threads[u].local.claim.Some? ==>
        && (first.Some? ==> second == Some(Sorted(first.value)) && SameResult(first.value, Sorted(first.value)))
        && (first.None? ==> Refused(s1.threads[t].local.pc) && second == Some(Failure(c', KeyInProgress, Null)))
        && |s1.shared.calls| <= |s.shared.calls| + 1 && s2.shared.calls == s1.shared.calls
  {
    var s1 := AfterAlone(s, t);
    AloneMoves(s, t);
    if s1.threads[t].local.claim.Some? {
      FirstLeaves(s, t, u, k);
      AfterFirst(s1, u, k, Returned(s.threads[t].call, s1.threads[t].local));
    }
  }
}
