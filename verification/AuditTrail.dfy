/** What the audit ledger holds about each call, told by the correlation ids of its events. */
module AuditTrail {
  import opened Json
  import opened AuditLedger
  import opened ExecutionResults
  import opened Pipeline
  import opened CallInvariant
  import opened ConcurrentRuntime
  import opened RuntimeSafety

  // ---------- whose event it is ----------

  /** Every event carries the intent id of the call that appended it. */
  ghost predicate Signed(s: State) {
    && |s.shared.ledger| == |s.shared.authors|
    && forall i | 0 <= i < |s.shared.ledger| ::
         s.shared.authors[i] in s.threads
         && SignedBy(s.shared.ledger[i].entry, s.threads[s.shared.authors[i]].call)
  }

  predicate SignedBy(e: Entry, c: Call) {
    e.correlationId == c.action.intentId && e.intentId == Some(c.action.intentId)
  }

  lemma PerformSigns(sh: Shared, c: Call, l: Local, t: Tid, act: Act)
    ensures var sh' := Perform(sh, c, l, t, act).0;
      || (sh'.ledger == sh.ledger && sh'.authors == sh.authors)
      || exists e :: SignedBy(e, c) && sh'.ledger == Appended(sh.ledger, e) && sh'.authors == sh.authors + [t]
  {
    if act.Append? { assert SignedBy(EntryOf(c, act.kind, act.details), c); }
  }

  lemma DoSigns(s: State, m: Move)
    requires Signed(s)
    ensures Signed(Do(s, m))
  {
    if m.Turn? && m.tid in s.threads {
      var c, l := s.threads[m.tid].call, s.threads[m.tid].local;
      PerformSigns(s.shared, c, l, m.tid, Next(s.shared.registry, c, l));
      DoGrows(s, m);
    }
  }

  lemma {:induction false} RunSigns(s: State, schedule: seq<Move>)
    requires Signed(s)
    ensures Signed(Run(s, schedule))
    decreases |schedule|
  {
    if schedule != [] {
      DoSigns(s, schedule[0]);
      RunSigns(Do(s, schedule[0]), schedule[1..]);
    }
  }

  /** The events of one correlation id, in order. */
  function EventsOf(ledger: seq<LedgerEvent>, id: string): seq<EventKind> {
    if ledger == [] then []
    else
      var n := |ledger| - 1;
      EventsOf(ledger[..n], id) + (if ledger[n].entry.correlationId == id then [ledger[n].entry.kind] else [])
  }

  ghost predicate DistinctIntents(s: State) {
    forall t, u | t in s.threads && u in s.threads && t != u ::
      s.threads[t].call.action.intentId != s.threads[u].call.action.intentId
  }

  lemma {:induction false} EventsAreOwn(s: State, n: nat, t: Tid)
    requires Signed(s) && DistinctIntents(s) && t in s.threads && n <= |s.shared.ledger|
    ensures EventsOf(s.shared.ledger[..n], s.threads[t].call.action.intentId)
         == Projection(s.shared.ledger[..n], s.shared.authors[..n], t)
  {
    if n > 0 {
      var ledger, authors := s.shared.ledger[..n], s.shared.authors[..n];
      EventsAreOwn(s, n - 1, t);
      assert ledger[..n - 1] == s.shared.ledger[..n - 1] && authors[..n - 1] == s.shared.authors[..n - 1];
      assert SignedBy(ledger[n - 1].entry, s.threads[authors[n - 1]].call);
    }
  }

  // ---------- the event grammar ----------

  /** The events of a call by how it ended, spelled out. */
  lemma WordsSpelled()
    ensures Main(0) == [] && Main(1) == [ActionReceived] && Main(2) == [ActionReceived, ContractValidated]
    ensures Main(3) == [ActionReceived, ContractValidated, PolicyEvaluated]
    ensures Main(4) == [ActionReceived, ContractValidated, PolicyEvaluated, ExecutionStarted]
    ensures Main(5) == [ActionReceived, ContractValidated, PolicyEvaluated, ExecutionStarted, ExecutionSucceeded]
  {
    var m0 := Main(0);
    var m1 := Main(1);
    var m2 := Main(2);
    var m3 := Main(3);
    var m4 := Main(4);
    var m5 := Main(5);
    assert m1 == m0 + [ActionReceived] && m2 == m1 + [ContractValidated] && m3 == m2 + [PolicyEvaluated];
    assert m4 == m3 + [ExecutionStarted] && m5 == m4 + [ExecutionSucceeded];
  }

  /** So are the words of the other endings: a failure's own event follows the main events before
      it. */
  lemma FailureWordsSpelled(why: Why, output: Value, r: ExecutionResult)
    ensures Word(Succeeded(output)) == Main(5) && Word(Replayed(r)) == Main(3) + [IdempotencyReplayed]
    ensures Word(Failed(why, output))
         == match why
            case LedgerBeforeResolution => Main(1)
            case NotRegistered => Main(1) + [ToolUnknown]
            case Mismatched => Main(1) + [ContractRejected]
            case BadInput(_) => Main(1) + [InputRejected]
            case Denied(_) => Main(3)
            case NotApproved => Main(3) + [ApprovalRequired]
            case NoKey => Main(3) + [KeyMissing]
            case KeyInProgress => Main(3) + [IdempotencyReplayed]
            case PreconditionNotMet => Main(3) + [PreconditionFailed]
            case LedgerBeforeExecution => Main(4)
            case HandlerRaised => Main(4) + [ExecutionFailed]
            case BadOutput(_) => Main(4) + [OutputRejected]
            case PostconditionNotMet => Main(4) + [PostconditionFailed]
  {
  }

  lemma OwnEventsAre(s: State, t: Tid)
    requires EventsOk(s) && Signed(s) && DistinctIntents(s) && t in s.threads
    ensures EventsOf(s.shared.ledger, s.threads[t].call.action.intentId)
         == Surviving(s.threads[t].call, s.threads[t].local.trail)
  {
    var n := |s.shared.ledger|;
    EventsAreOwn(s, n, t);
    assert s.shared.ledger[..n] == s.shared.ledger && s.shared.authors[..n] == s.shared.authors;
  }

  /** When intent ids are distinct, the events under a call's intent id are the word for its
      ending (the main events so far, while it is under way or if it raised), without those kinds
      of event whose appends fail, and nothing else. */
  lemma EventGrammar(s0: State, schedule: seq<Move>, t: Tid)
    requires Init(s0) && t in s0.threads && DistinctIntents(s0)
    ensures var s := Run(s0, schedule);
      && t in s.threads
      && var c, l := s.threads[t].call, s.threads[t].local;
      && (l.pc.Complete? || l.pc.Done? ==> l.ending.Some?)
      && EventsOf(s.shared.ledger, c.action.intentId)
         == Surviving(c, if l.pc.Complete? || l.pc.Done? then Word(l.ending.value) else Main(Stage(l.pc)))
  {
    Reachable(s0, schedule);
    RunGrows(s0, schedule);
    RunSigns(s0, schedule);
    OwnEventsAre(Run(s0, schedule), t);
    TrailFacts(Run(s0, schedule), t);
  }

  /** Nothing is left out of a word none of whose events fails to be stored. */
  lemma {:induction false} SurvivingWhole(c: Call, word: seq<EventKind>)
    ensures Surviving(c, word) == word <==> forall i | 0 <= i < |word| :: AppendOk(c, word[i])
  {
    if word != [] {
      var n := |word| - 1;
      SurvivingWhole(c, word[..n]);
      SurvivingShorter(c, word[..n]);
      assert word == word[..n] + [word[n]];
    }
  }

  lemma {:induction false} SurvivingShorter(c: Call, word: seq<EventKind>)
    ensures |Surviving(c, word)| <= |word|
  {
    if word != [] { SurvivingShorter(c, word[..|word| - 1]); }
  }

  lemma TrailFacts(s: State, t: Tid)
    requires ThreadsOk(s) && t in s.threads
    ensures TrailOk(s.threads[t].local)
  {
    OwnFacts(s, t);
  }

  /** Sequence numbers are 1..n in storage order after every run, whatever appends failed,
      and every earlier ledger is a prefix of every later one. */
  lemma LedgerIsNumbered(s0: State, schedule: seq<Move>, more: seq<Move>)
    requires Init(s0)
    ensures Numbered(Run(s0, schedule).shared.ledger)
    ensures Run(s0, schedule).shared.ledger <= Run(s0, schedule + more).shared.ledger
  {
    Reachable(s0, schedule);
    RunRuns(s0, schedule, more);
    RunGrows(Run(s0, schedule), more);
  }

  /** The event was appended under this correlation id. */
  predicate Recorded(ledger: seq<LedgerEvent>, i: nat, id: string, kind: EventKind) {
    i < |ledger| && ledger[i].entry.correlationId == id && ledger[i].entry.kind == kind
  }

  /** When the tool is called, the ledger already holds, under that very call's intent id, its
      `action_received` and, after it, its `execution_started`. */
  lemma HandlerCallIsAnnounced(s0: State, schedule: seq<Move>, n: nat)
    requires Init(s0) && n < |Run(s0, schedule).shared.calls|
    ensures var s := Run(s0, schedule);
      var h := s.shared.calls[n];
      h.caller in s.threads
      && var id := s.threads[h.caller].call.action.intentId;
      exists i: nat, j: nat ::
        i < j < h.ledgerLength && Recorded(s.shared.ledger, i, id, ActionReceived)
        && Recorded(s.shared.ledger, j, id, ExecutionStarted)
  {
    Reachable(s0, schedule);
    RunSigns(s0, schedule);
    var s := Run(s0, schedule);
    var h := s.shared.calls[n];
    assert CallEntryOk(s, h);
    PlaceFacts(s, h.caller);
    var l, id := s.threads[h.caller].local, s.threads[h.caller].call.action.intentId;
    assert Recorded(s.shared.ledger, l.receivedAt.value, id, ActionReceived);
    assert Recorded(s.shared.ledger, l.startedAt.value, id, ExecutionStarted);
  }
}
