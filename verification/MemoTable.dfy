/** The concurrent runtime refines a memo table: the first call to claim a key takes its slot
    and fills it with its own result; every later call answers with what its claim found there,
    the result again, or "in progress" if the slot was taken but not yet filled. */
module MemoTable {
  import opened Json
  import opened CanonicalText
  import opened Idempotency
  import opened ExecutionResults
  import opened Pipeline
  import opened CallInvariant
  import opened ConcurrentRuntime
  import opened RuntimeSafety

  // ---------- the specification ----------

  datatype Slot = Taken(owner: Tid) | Filled(result: ExecutionResult)

  /** What a call's claim found. */
  datatype Finding = Finding(key: string, slot: Slot)

  /** `replied` are the callers that have their answer. */
  datatype Memo = Memo(slots: map<string, Slot>, found: map<Tid, Finding>, replied: set<Tid>)

  datatype Reply = Busy | Gave(result: ExecutionResult)

  datatype Event = Claimed(caller: Tid, key: string) | Replied(caller: Tid, key: string, reply: Reply)

  const BLANK := Memo(map[], map[], {})

  /** A result with the members of its output sorted. */
  function Sorted(r: ExecutionResult): ExecutionResult { r.(output := Canon(r.output)) }

  predicate Allowed(m: Memo, e: Event) {
    match e
    case Claimed(t, _) =>
      t !in m.replied && t !in m.found && forall k | k in m.slots :: m.slots[k] != Taken(t)
    case Replied(t, k, reply) =>
      t !in m.replied
      && if t in m.found then
           m.found[t].key == k
           && (match m.found[t].slot case Taken(_) => reply.Busy? case Filled(r) => reply == Gave(Sorted(r)))
         else reply.Gave? && k in m.slots && m.slots[k] == Taken(t)
  }

  function After(m: Memo, e: Event): Memo {
    match e
    case Claimed(t, k) =>
      if k in m.slots then m.(found := m.found[t := Finding(k, m.slots[k])]) else m.(slots := m.slots[k := Taken(t)])
    case Replied(t, k, reply) =>
      var slots := if t !in m.found && reply.Gave? then m.slots[k := Filled(reply.result)] else m.slots;
      m.(slots := slots, replied := m.replied + {t})
  }

  /** The memo after all the events. */
  function Remembered(m: Memo, trace: seq<Event>): Memo
    decreases |trace|
  {
    if trace == [] then m else Remembered(After(m, trace[0]), trace[1..])
  }

  predicate Explained(m: Memo, trace: seq<Event>)
    decreases |trace|
  {
    trace == [] || (Allowed(m, trace[0]) && Explained(After(m, trace[0]), trace[1..]))
  }

  // ---------- the trace of a concurrent run ----------

  /** The claim a step makes, if it makes one. */
  function ClaimMade(c: Call, l: Local, n: Local, t: Tid): seq<Event> {
    if l.claim.None? && n.claim.Some? && c.action.idempotencyKey.Some? then [Claimed(t, c.action.idempotencyKey.value)]
    else []
  }

  /** What a finished call that got to its claim returned. */
  function ReplyMade(c: Call, l: Local, t: Tid): seq<Event> {
    if l.pc.Done? && l.ending.Some? && l.claim.Some? && c.action.idempotencyKey.Some? then
      [Replied(t, c.action.idempotencyKey.value,
               if !Holds(l) && l.ending.value.Failed? then Busy else Gave(ResultOf(c, l.ending.value)))]
    else []
  }

  function EventsAt(s: State, m: Move): seq<Event> {
    if m.Turn? && m.tid in s.threads && !Finished(s.threads[m.tid].local) then
      var c, l, n := s.threads[m.tid].call, s.threads[m.tid].local, Do(s, m).threads[m.tid].local;
      ClaimMade(c, l, n, m.tid) + ReplyMade(c, n, m.tid)
    else []
  }

  function Trace(s: State, schedule: seq<Move>): seq<Event>
    decreases |schedule|
  {
    if schedule == [] then [] else EventsAt(s, schedule[0]) + Trace(Do(s, schedule[0]), schedule[1..])
  }

  // ---------- the simulation relation ----------

  ghost predicate EncodedAs(v: Value, r: ExecutionResult) {
    r.Storable() && forall x {:trigger Encode(x)} | x == r :: v == Encode(x)
  }

  ghost predicate SlotFits(r: Record, slot: Slot) {
    match slot
    case Taken(_) => r.status.InProgress?
    case Filled(x) => r.status.Completed? && EncodedAs(r.result, x)
  }

  predicate Observes(l: Local) { l.claim.Some? && !Holds(l) }

  /** A call is among the findings exactly if its claim found a record, and as it found it; it has
      replied exactly if it is done; the slots it owns are those of the key it holds. */
  ghost predicate CallFits(m: Memo, t: Tid, c: Call, l: Local) {
    && (t in m.found <==> Observes(l))
    && (t in m.replied <==> l.pc.Done? && l.claim.Some?)
    && (Observes(l) ==>
          c.action.idempotencyKey == Some(m.found[t].key) && SlotFits(l.claim.value.record, m.found[t].slot))
    && forall k | k in m.slots && m.slots[k] == Taken(t) :: Holds(l) && l.claim.value.record.key == k
  }

  ghost predicate SlotsFit(slots: map<string, Slot>, records: Records) {
    slots.Keys == records.Keys && forall k | k in records :: SlotFits(records[k], slots[k])
  }

  /** Only calls of the system own slots. */
  predicate OwnersKnown(slots: map<string, Slot>, callers: set<Tid>) {
    forall k | k in slots && slots[k].Taken? :: slots[k].owner in callers
  }

  ghost predicate Represents(m: Memo, s: State) {
    && SlotsFit(m.slots, s.shared.records) && OwnersKnown(m.slots, s.threads.Keys)
    && forall t | t in s.threads :: CallFits(m, t, s.threads[t].call, s.threads[t].local)
  }

  /** The step's events are allowed, and the memo they lead to fits the new records and the
      stepping call. */
  ghost predicate Simulates(m: Memo, events: seq<Event>, records: Records, t: Tid, c: Call, l: Local) {
    |events| <= 1
    && (events != [] ==> Allowed(m, events[0]) && events[0].caller == t)
    && var m' := if events == [] then m else After(m, events[0]);
       SlotsFit(m'.slots, records) && CallFits(m', t, c, l)
  }

  lemma ReplayedIsSorted(v: Value, r: ExecutionResult, answer: ExecutionResult)
    requires EncodedAs(v, r) && ReplaysAs(v, answer)
    ensures answer == Sorted(r)
  {
    assert v == Encode(r);
    ReplayEncode(r);
    assert Replay(v) == Some(answer);
  }

  /** A call that found its key claimed replies as its finding says. */
  lemma ObserverAllowed(m: Memo, c: Call, l: Local, n: Local, t: Tid)
    requires CallFits(m, t, c, l) && !l.pc.Done? && n.claim == l.claim
    requires Observes(n) && ClaimShape(c, n) && ReplyMade(c, n, t) != []
    ensures Allowed(m, ReplyMade(c, n, t)[0])
  {
    if m.found[t].slot.Filled? {
      ReplayedIsSorted(n.claim.value.record.result, m.found[t].slot.result, n.ending.value.result);
    }
  }

  // ---------- step by step ----------

  lemma QuietPerform(sh: Shared, c: Call, l: Local, t: Tid, act: Act)
    requires ActContinues(c, l, act) && Quiet(act)
    ensures var (sh', n) := Perform(sh, c, l, t, act);
      sh'.records == sh.records && n.claim == l.claim && (Holds(l) && !l.pc.Done? ==> !n.pc.Done?)
  {
  }

  /** Whether the act only moves its own call or the ledger, or calls the tool. */
  predicate Quiet(act: Act) { act.Think? || act.Append? || act.CallTool? }

  lemma QuietSimulates(m: Memo, sh: Shared, c: Call, l: Local, n: Local, t: Tid)
    requires SlotsFit(m.slots, sh.records) && CallFits(m, t, c, l) && ClaimShape(c, n)
    requires n.claim == l.claim && (Holds(l) ==> !n.pc.Done?) && !l.pc.Done?
    ensures Simulates(m, ClaimMade(c, l, n, t) + ReplyMade(c, n, t), sh.records, t, c, n)
  {
    assert ClaimMade(c, l, n, t) + ReplyMade(c, n, t) == ReplyMade(c, n, t);
    if ReplyMade(c, n, t) != [] { ObserverAllowed(m, c, l, n, t); }
  }

  lemma ClaimSimulates(m: Memo, sh: Shared, c: Call, l: Local, t: Tid, k: string)
    requires SlotsFit(m.slots, sh.records) && CallFits(m, t, c, l)
    requires l.claim.None? && c.action.idempotencyKey == Some(k)
    ensures var (sh', n) := Perform(sh, c, l, t, ClaimKey(k));
      Simulates(m, ClaimMade(c, l, n, t) + ReplyMade(c, n, t), sh'.records, t, c, n)
  {
    var (sh', n) := Perform(sh, c, l, t, ClaimKey(k));
    assert ClaimMade(c, l, n, t) + ReplyMade(c, n, t) == [Claimed(t, k)];
  }

  lemma CompletedSimulates(m: Memo, records: Records, c: Call, l: Local, t: Tid, r: Record)
    requires SlotsFit(m.slots, records) && CallFits(m, t, c, l)
    requires RecordOfHolder(records, c, l) && Holds(l) && l.pc.Complete? && l.ending.Some?
    requires r.key == l.claim.value.record.key && r.status.Completed? && m.slots[r.key] == Taken(t)
    requires r.result == Encode(ResultOf(c, l.ending.value)) && ResultOf(c, l.ending.value).Storable()
    ensures var n := l.(pc := Done);
      Simulates(m, ClaimMade(c, l, n, t) + ReplyMade(c, n, t), records[r.key := r], t, c, n)
  {
    var n := l.(pc := Done);
    assert ClaimMade(c, l, n, t) + ReplyMade(c, n, t) == [Replied(t, r.key, Gave(ResultOf(c, l.ending.value)))];
    assert EncodedAs(r.result, ResultOf(c, l.ending.value));
  }

  /** The slot of a key in progress is owned by the call that holds the key. */
  lemma HolderOwnsSlot(m: Memo, s: State, t: Tid, k: string)
    requires Inv(s) && Represents(m, s) && t in s.threads && HoldsKey(s.threads[t], k)
    requires k in s.shared.records && s.shared.records[k].status.InProgress?
    ensures m.slots[k] == Taken(t)
  {
    assert SlotFits(s.shared.records[k], m.slots[k]);
    var u := m.slots[k].owner;
    assert CallFits(m, u, s.threads[u].call, s.threads[u].local);
    assert HoldsKey(s.threads[u], k);
  }

  /** What completing a held claim does, and to which record. */
  lemma CompletionFacts(s: State, t: Tid, claim: Claim, r: ExecutionResult)
    requires Ready(s, t, CompleteClaim(claim, r))
    ensures var c, l := s.threads[t].call, s.threads[t].local;
      && RecordOfHolder(s.shared.records, c, l) && Holds(l) && l.claim == Some(claim) && l.pc.Complete?
      && l.ending.Some? && r == ResultOf(c, l.ending.value) && r.Storable()
      && s.shared.records[claim.record.key].status.InProgress?
      && var done := CompletedRecord(claim.record.key, claim.record.ownerToken, c, r, Encode(r));
         Perform(s.shared, c, l, t, CompleteClaim(claim, r))
         == (s.shared.(records := s.shared.records[claim.record.key := done]), l.(pc := Done))
  {
    ClaimFacts(s, t);
    EndingStorable(s, t);
    CompletionPerformed(s.shared, s.threads[t].call, s.threads[t].local, t, claim, r);
  }

  lemma CompleteSimulates(m: Memo, s: State, t: Tid, claim: Claim, r: ExecutionResult)
    requires Ready(s, t, CompleteClaim(claim, r)) && Represents(m, s)
    ensures var c, l := s.threads[t].call, s.threads[t].local;
      var (sh, n) := Perform(s.shared, c, l, t, CompleteClaim(claim, r));
      Simulates(m, ClaimMade(c, l, n, t) + ReplyMade(c, n, t), sh.records, t, c, n)
  {
    var c, l := s.threads[t].call, s.threads[t].local;
    CompletionFacts(s, t, claim, r);
    HolderOwnsSlot(m, s, t, claim.record.key);
    assert CallFits(m, t, c, l);
    var done := CompletedRecord(claim.record.key, claim.record.ownerToken, c, r, Encode(r));
    CompletedSimulates(m, s.shared.records, c, l, t, done);
  }

  lemma ActSimulates(m: Memo, s: State, t: Tid, act: Act)
    requires Ready(s, t, act) && Represents(m, s) && !Finished(s.threads[t].local)
    ensures var c, l := s.threads[t].call, s.threads[t].local;
      var (sh, n) := Perform(s.shared, c, l, t, act);
      Simulates(m, ClaimMade(c, l, n, t) + ReplyMade(c, n, t), sh.records, t, c, n)
  {
    var c, l := s.threads[t].call, s.threads[t].local;
    ActOkContinues(s.shared.registry, c, l, act);
    assert CallFits(m, t, c, l);
    if Quiet(act) {
      var (sh, n) := Perform(s.shared, c, l, t, act);
      QuietPerform(s.shared, c, l, t, act);
      ActKeeps(s, t, act);
      ClaimFacts(Put(s, t, sh, n), t);
      QuietSimulates(m, s.shared, c, l, n, t);
    } else if act.ClaimKey? {
      ClaimFacts(s, t);
      ClaimSimulates(m, s.shared, c, l, t, act.key);
    } else {
      CompleteSimulates(m, s, t, act.claim, act.result);
    }
  }

  /** The second memo differs from the first only in what concerns one call. */
  ghost predicate OnlyOf(m: Memo, m': Memo, t: Tid) {
    && (forall u | u != t :: (u in m'.found <==> u in m.found) && (u in m.found ==> m'.found[u] == m.found[u]))
    && (forall u | u != t :: u in m'.replied <==> u in m.replied)
    && (forall k | k in m'.slots && m'.slots[k].Taken? && m'.slots[k].owner != t ::
          k in m.slots && m.slots[k] == m'.slots[k])
  }

  /** Only the stepping call's finding and slots change. */
  lemma OthersFit(m: Memo, m': Memo, s: State, s': State, t: Tid)
    requires Represents(m, s) && t in s.threads && SameElsewhere(s, s', t)
    requires OnlyOf(m, m', t)
    requires SlotsFit(m'.slots, s'.shared.records) && CallFits(m', t, s'.threads[t].call, s'.threads[t].local)
    ensures Represents(m', s')
  {
    forall u | u in s'.threads ensures CallFits(m', u, s'.threads[u].call, s'.threads[u].local) {
      if u != t { assert CallFits(m, u, s.threads[u].call, s.threads[u].local); }
    }
  }

  predicate SameElsewhere(s: State, s': State, t: Tid) {
    s'.threads.Keys == s.threads.Keys && forall u | u in s.threads && u != t :: s'.threads[u] == s.threads[u]
  }

  lemma TurnSimulates(m: Memo, s: State, t: Tid)
    requires Inv(s) && Represents(m, s) && t in s.threads && !Finished(s.threads[t].local)
    ensures var events, s' := EventsAt(s, Turn(t)), Do(s, Turn(t));
      Simulates(m, events, s'.shared.records, t, s'.threads[t].call, s'.threads[t].local)
  {
    TurnReady(s, t);
    ActSimulates(m, s, t, Next(s.shared.registry, s.threads[t].call, s.threads[t].local));
  }

  lemma EventsAreOwn(m: Memo, e: Event)
    ensures OnlyOf(m, After(m, e), e.caller)
  {
  }

  lemma TurnElsewhere(s: State, t: Tid)
    requires t in s.threads
    ensures SameElsewhere(s, Do(s, Turn(t)), t)
  {
  }

  /** A move writes at most one event, which the memo allows and which leads it to the new state. */
  ghost predicate LeadsTo(m: Memo, events: seq<Event>, s': State) {
    && |events| <= 1
    && (events == [] ==> Represents(m, s'))
    && (events != [] ==> Allowed(m, events[0]) && Represents(After(m, events[0]), s'))
  }

  lemma TurnExplained(m: Memo, s: State, t: Tid)
    requires Inv(s) && Represents(m, s) && t in s.threads && !Finished(s.threads[t].local)
    ensures LeadsTo(m, EventsAt(s, Turn(t)), Do(s, Turn(t)))
  {
    var events, s' := EventsAt(s, Turn(t)), Do(s, Turn(t));
    TurnSimulates(m, s, t);
    TurnElsewhere(s, t);
    if events == [] {
      OthersFit(m, m, s, s', t);
    } else {
      EventsAreOwn(m, events[0]);
      OthersFit(m, After(m, events[0]), s, s', t);
    }
  }

  /** Registering a tool, or a turn of a finished call, is none of the memo's business. */
  lemma QuietMove(s: State, move: Move)
    requires move.Turn? && move.tid in s.threads ==> Finished(s.threads[move.tid].local)
    ensures var s' := Do(s, move);
      EventsAt(s, move) == [] && s'.threads == s.threads && s'.shared.records == s.shared.records
  {
    if move.Turn? && move.tid in s.threads {
      FinishedStays(s.shared, s.threads[move.tid].call, s.threads[move.tid].local, move.tid);
    }
  }

  lemma MoveExplained(m: Memo, s: State, move: Move)
    requires Inv(s) && Represents(m, s)
    ensures LeadsTo(m, EventsAt(s, move), Do(s, move))
  {
    if move.Turn? && move.tid in s.threads && !Finished(s.threads[move.tid].local) {
      TurnExplained(m, s, move.tid);
    } else {
      QuietMove(s, move);
      RestRepresents(m, s, Do(s, move));
    }
  }

  lemma RestRepresents(m: Memo, s: State, s': State)
    requires Represents(m, s) && s'.threads == s.threads && s'.shared.records == s.shared.records
    ensures Represents(m, s')
  {
  }

  // ---------- the refinement ----------

  lemma ExplainedOn(m: Memo, events: seq<Event>, rest: seq<Event>)
    requires |events| <= 1 && (events != [] ==> Allowed(m, events[0]))
    requires Explained(if events == [] then m else After(m, events[0]), rest)
    ensures Explained(m, events + rest)
    ensures Remembered(m, events + rest) == Remembered(if events == [] then m else After(m, events[0]), rest)
  {
    if events == [] {
      assert events + rest == rest;
    } else {
      assert (events + rest)[1..] == rest;
    }
  }

  lemma {:induction false} RunRefines(m: Memo, s: State, schedule: seq<Move>)
    requires Inv(s) && Represents(m, s)
    ensures Explained(m, Trace(s, schedule)) && Represents(Remembered(m, Trace(s, schedule)), Run(s, schedule))
    decreases |schedule|
  {
    if schedule != [] {
      var move := schedule[0];
      MoveExplained(m, s, move);
      DoKeeps(s, move);
      var events, rest := EventsAt(s, move), Trace(Do(s, move), schedule[1..]);
      RunRefines(if events == [] then m else After(m, events[0]), Do(s, move), schedule[1..]);
      ExplainedOn(m, events, rest);
    }
  }

  /** The claims and replies of every interleaving are those of a memo table that starts blank,
      and the table they lead to represents the records and the calls as they then stand. */
  lemma RuntimeRefinesMemoTable(s0: State, schedule: seq<Move>)
    requires Init(s0)
    ensures Explained(BLANK, Trace(s0, schedule))
    ensures Represents(Remembered(BLANK, Trace(s0, schedule)), Run(s0, schedule))
  {
    InitInv(s0);
    assert Represents(BLANK, s0);
    RunRefines(BLANK, s0, schedule);
  }

  lemma SilentUntilDone(c: Call, l: Local, t: Tid)
    requires !l.pc.Done?
    ensures ReplyMade(c, l, t) == []
  {
  }

  /** A keyed call that got to its claim and returned is among the replies, with the very
      result it returned. */
  lemma {:induction false} EveryAnswerIsAReply(s: State, schedule: seq<Move>, t: Tid)
    requires t in s.threads && !Finished(s.threads[t].local)
    ensures t in Run(s, schedule).threads
    ensures var th := Run(s, schedule).threads[t];
      forall e | e in ReplyMade(th.call, th.local, t) :: e in Trace(s, schedule)
    decreases |schedule|
  {
    if schedule == [] {
      SilentUntilDone(s.threads[t].call, s.threads[t].local, t);
    } else {
      var s1 := Do(s, schedule[0]);
      MoveReplies(s, schedule[0], t);
      if Finished(s1.threads[t].local) {
        RunGrows(s1, schedule[1..]);
      } else {
        EveryAnswerIsAReply(s1, schedule[1..], t);
      }
    }
  }

  /** Only its own turn finishes a call, and that move replies what the call returns. */
  lemma MoveReplies(s: State, m: Move, t: Tid)
    requires t in s.threads && !Finished(s.threads[t].local)
    ensures t in Do(s, m).threads
    ensures var th := Do(s, m).threads[t];
      Finished(th.local) ==> forall e | e in ReplyMade(th.call, th.local, t) :: e in EventsAt(s, m)
  {
  }

  // ---------- what being a memo table means ----------

  lemma {:induction false} RepliedStays(m: Memo, trace: seq<Event>, j: nat)
    requires Explained(m, trace) && j < |trace| && trace[j].Replied?
    ensures trace[j].caller !in m.replied
    decreases |trace|
  {
    if j > 0 { RepliedStays(After(m, trace[0]), trace[1..], j - 1); }
  }

  lemma {:induction false} RepliesDiffer(m: Memo, trace: seq<Event>, i: nat, j: nat)
    requires Explained(m, trace) && i < j < |trace| && trace[i].Replied? && trace[j].Replied?
    ensures trace[i].caller != trace[j].caller
    decreases |trace|
  {
    if i > 0 {
      RepliesDiffer(After(m, trace[0]), trace[1..], i - 1, j - 1);
    } else {
      RepliedStays(After(m, trace[0]), trace[1..], j - 1);
    }
  }

  /** No call replies twice. */
  lemma OneReplyEach(s0: State, schedule: seq<Move>, i: nat, j: nat)
    requires Init(s0) && i < j < |Trace(s0, schedule)|
    requires Trace(s0, schedule)[i].Replied? && Trace(s0, schedule)[j].Replied?
    ensures Trace(s0, schedule)[i].caller != Trace(s0, schedule)[j].caller
  {
    RuntimeRefinesMemoTable(s0, schedule);
    RepliesDiffer(BLANK, Trace(s0, schedule), i, j);
  }

  /** Filled slots were seen as they are. */
  predicate Faithful(m: Memo) {
    forall t | t in m.found && m.found[t].slot.Filled? ::
      m.found[t].key in m.slots && m.slots[m.found[t].key] == m.found[t].slot
  }

  lemma FaithfulStays(m: Memo, e: Event)
    requires Faithful(m) && Allowed(m, e)
    ensures Faithful(After(m, e))
    ensures forall k | k in m.slots && m.slots[k].Filled? ::
      k in After(m, e).slots && After(m, e).slots[k] == m.slots[k]
  {
  }

  lemma {:induction false} RememberedAnswer(m: Memo, trace: seq<Event>, j: nat, k: string, r: ExecutionResult)
    requires Faithful(m) && Explained(m, trace) && k in m.slots && m.slots[k] == Filled(r)
    requires j < |trace| && trace[j].Replied? && trace[j].key == k && trace[j].reply.Gave?
    ensures trace[j].reply.result == Sorted(r)
    decreases |trace|
  {
    if j > 0 {
      FaithfulStays(m, trace[0]);
      RememberedAnswer(After(m, trace[0]), trace[1..], j - 1, k, r);
    }
  }

  lemma {:induction false} ExplainedAgree(m: Memo, trace: seq<Event>, i: nat, j: nat)
    requires Faithful(m) && Explained(m, trace) && i < j < |trace|
    requires trace[i].Replied? && trace[j].Replied? && trace[i].key == trace[j].key
    requires trace[i].reply.Gave? && trace[j].reply.Gave?
    ensures var a, b := trace[i].reply.result, trace[j].reply.result; b == a || b == Sorted(a)
    decreases |trace|
  {
    FaithfulStays(m, trace[0]);
    if i > 0 {
      ExplainedAgree(After(m, trace[0]), trace[1..], i - 1, j - 1);
    } else {
      var k := trace[0].key;
      RememberedAnswer(After(m, trace[0]), trace[1..], j - 1, k, After(m, trace[0]).slots[k].result);
    }
  }

  /** Any two answers under one key are the same result, field for field, up to the member
      order of the output: identifiers, times, success, error and postcondition verdict are
      those of the one call that ran. */
  lemma AnswersAgree(s0: State, schedule: seq<Move>, i: nat, j: nat)
    requires Init(s0) && i < j < |Trace(s0, schedule)|
    requires var es := Trace(s0, schedule);
      && es[i].Replied? && es[j].Replied? && es[i].key == es[j].key
      && es[i].reply.Gave? && es[j].reply.Gave?
    ensures var a, b := Trace(s0, schedule)[i].reply.result, Trace(s0, schedule)[j].reply.result;
      b == a || b == Sorted(a)
  {
    RuntimeRefinesMemoTable(s0, schedule);
    ExplainedAgree(BLANK, Trace(s0, schedule), i, j);
  }

  predicate GaveFor(e: Event, k: string) { e.Replied? && e.key == k && e.reply.Gave? }

  /** A finding of a taken slot: another call had claimed the key, and no result had been given
      for the key before this call's own claim. */
  predicate FoundTaken(trace: seq<Event>, t: Tid, k: string) {
    exists h, j ::
      && 0 <= h < j < |trace| && trace[h].Claimed? && trace[h].key == k && trace[h].caller != t
      && trace[j] == Claimed(t, k) && NoneGave(trace[..j], k)
  }

  predicate NoneGave(trace: seq<Event>, k: string) { forall e | e in trace :: !GaveFor(e, k) }

  predicate ClaimedBy(trace: seq<Event>, t: Tid, k: string) { Claimed(t, k) in trace }

  /** How the memo came about. */
  ghost predicate Explains(past: seq<Event>, m: Memo) {
    && Faithful(m)
    && (forall k | k in m.slots && m.slots[k].Taken? :: ClaimedBy(past, m.slots[k].owner, k))
    && (forall k | !(k in m.slots && m.slots[k].Filled?) :: NoneGave(past, k))
    && (forall t | t in m.found && m.found[t].slot.Taken? :: FoundTaken(past, t, m.found[t].key))
  }

  lemma FoundEarlier(past: seq<Event>, e: Event, t: Tid, k: string)
    requires FoundTaken(past, t, k)
    ensures FoundTaken(past + [e], t, k)
  {
    var h, j :| && 0 <= h < j < |past| && past[h].Claimed? && past[h].key == k && past[h].caller != t
                && past[j] == Claimed(t, k) && NoneGave(past[..j], k);
    assert (past + [e])[..j] == past[..j];
    assert (past + [e])[h] == past[h] && (past + [e])[j] == past[j];
  }

  lemma FoundNow(past: seq<Event>, m: Memo, t: Tid, k: string)
    requires Explains(past, m) && Allowed(m, Claimed(t, k)) && k in m.slots && m.slots[k].Taken?
    ensures FoundTaken(past + [Claimed(t, k)], t, k)
  {
    var trace, u, j := past + [Claimed(t, k)], m.slots[k].owner, |past|;
    assert ClaimedBy(past, u, k);
    var h :| 0 <= h < j && past[h] == Claimed(u, k);
    assert trace[..j] == past && trace[h] == past[h] && trace[j] == Claimed(t, k);
  }

  lemma ExplainsNext(past: seq<Event>, m: Memo, e: Event)
    requires Explains(past, m) && Allowed(m, e)
    ensures Explains(past + [e], After(m, e))
  {
    FaithfulStays(m, e);
    var m' := After(m, e);
    forall t | t in m'.found && m'.found[t].slot.Taken? ensures FoundTaken(past + [e], t, m'.found[t].key) {
      if t in m.found && m'.found[t] == m.found[t] {
        FoundEarlier(past, e, t, m.found[t].key);
      } else {
        FoundNow(past, m, t, e.key);
      }
    }
    forall k | k in m'.slots && m'.slots[k].Taken? ensures ClaimedBy(past + [e], m'.slots[k].owner, k) {
      if k in m.slots { assert ClaimedBy(past, m.slots[k].owner, k); }
    }
    forall k | !(k in m'.slots && m'.slots[k].Filled?) ensures NoneGave(past + [e], k) {
      assert NoneGave(past, k);
    }
  }

  lemma {:induction false} BusyWasTaken(past: seq<Event>, m: Memo, rest: seq<Event>, i: nat)
    requires Explains(past, m) && Explained(m, rest) && i < |rest| && rest[i].Replied? && rest[i].reply.Busy?
    ensures FoundTaken(past + rest[..i], rest[i].caller, rest[i].key)
    decreases |rest|
  {
    if i == 0 {
      assert past + rest[..0] == past;
    } else {
      ExplainsNext(past, m, rest[0]);
      BusyWasTaken(past + [rest[0]], After(m, rest[0]), rest[1..], i - 1);
      assert past + rest[..i] == past + [rest[0]] + rest[1..][..i - 1];
    }
  }

  /** "In progress" is answered only if, when the call made its own claim, another call had
      claimed the key and had not given its result. */
  lemma BusyMeansTaken(s0: State, schedule: seq<Move>, i: nat)
    requires Init(s0) && i < |Trace(s0, schedule)|
    requires Trace(s0, schedule)[i].Replied? && Trace(s0, schedule)[i].reply.Busy?
    ensures var trace := Trace(s0, schedule); FoundTaken(trace[..i], trace[i].caller, trace[i].key)
  {
    var trace := Trace(s0, schedule);
    RuntimeRefinesMemoTable(s0, schedule);
    assert Explains([], BLANK);
    BusyWasTaken([], BLANK, trace, i);
    assert [] + trace[..i] == trace[..i];
  }
}
