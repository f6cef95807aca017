/** Threads racing on one outbox: `stage` and `release` are atomic, `release_all` is a snapshot
    followed by one atomic release at a time. */
module OutboxRaces {
  import opened Json
  import opened Outbox
  import opened OutboxLaws

  /** One `release_all` under way: the operations of its snapshot and how many it has released. */
  datatype Worker = Worker(
    transaction: string, snapshot: Option<seq<string>>, done: nat, summary: Summary, raised: bool)

  datatype State = State(box: Box, workers: map<nat, Worker>)

  datatype Move =
    | StageMove(id: string, transaction: string, name: string, arguments: seq<Member>, handler: Handler)
    | ReleaseMove(id: string)
    | SnapshotMove(worker: nat)
    | TurnMove(worker: nat)

  function Starting(transaction: string): Worker { Worker(transaction, None, 0, Summary(transaction, [], []), false) }

  /** The worker's next release; an exception ends it. */
  function Turn(b: Box, clock: Clock, w: Worker): (Box, Worker)
    requires w.snapshot.Some? && w.done < |w.snapshot.value|
  {
    match Release(b, clock, w.snapshot.value[w.done])
    case (b', Ok(op)) => (b', w.(done := w.done + 1, summary := Noted(w.summary, op)))
    case (b', Err(_)) => (b', w.(raised := true))
  }

  predicate CanTurn(w: Worker) { !w.raised && w.snapshot.Some? && w.done < |w.snapshot.value| }

  /** A stage under an identifier already in use cannot happen, since identifiers are fresh. */
  function Do(s: State, clock: Clock, m: Move): State {
    match m
    case StageMove(id, t, name, arguments, h) =>
      if id in s.box.operations then s else s.(box := Stage(s.box, clock, id, t, name, arguments, h).0)
    case ReleaseMove(id) => s.(box := Release(s.box, clock, id).0)
    case SnapshotMove(w) =>
      if w in s.workers && s.workers[w].snapshot.None? then
        s.(workers := s.workers[w := s.workers[w].(snapshot := Some(Pending(s.box, s.workers[w].transaction)))])
      else s
    case TurnMove(w) =>
      if w in s.workers && CanTurn(s.workers[w]) then
        var (b, worker) := Turn(s.box, clock, s.workers[w]);
        State(b, s.workers[w := worker])
      else s
  }

  function Run(s: State, clock: Clock, schedule: seq<Move>): State
    decreases |schedule|
  {
    if schedule == [] then s else Run(Do(s, clock, schedule[0]), clock, schedule[1..])
  }

  ghost predicate Init(s: State) {
    s.box == EMPTY && forall w | w in s.workers :: s.workers[w] == Starting(s.workers[w].transaction)
  }

  // ---------- what holds whatever handlers answer ----------

  /** A worker has settled a prefix of its snapshot, and its summary is what the stored
      records say about that prefix. */
  ghost predicate WorkerOk(operations: map<string, Operation>, w: Worker) {
    && (w.snapshot.None? ==> w == Starting(w.transaction))
    && (w.snapshot.Some? ==>
          var ids := w.snapshot.value;
          && w.done <= |ids| && Distinct(ids)
          && (forall i | 0 <= i < |ids| :: ids[i] in operations && operations[ids[i]].transactionId == w.transaction)
          && (forall i | 0 <= i < w.done :: !operations[ids[i]].status.Staged?)
          && w.summary == Tally(Summary(w.transaction, [], []), operations, ids[..w.done]))
  }

  ghost predicate Inv(s: State) {
    Kept(s.box) && forall w | w in s.workers :: WorkerOk(s.box.operations, s.workers[w])
  }

  /** Operations are never forgotten, stay with their transaction, and are final once settled. */
  predicate Evolves(m: map<string, Operation>, m': map<string, Operation>) {
    forall id | id in m ::
      id in m' && m'[id].transactionId == m[id].transactionId && (!m[id].status.Staged? ==> m'[id] == m[id])
  }

  /** A step calls at most one handler, that of an operation staged till then. */
  predicate CallsStaged(b: Box, b': Box) {
    || b'.calls == b.calls
    || exists id :: id in b.operations && b.operations[id].status.Staged? && b'.calls == b.calls + [id]
  }

  lemma WorkerFrame(m: map<string, Operation>, m': map<string, Operation>, w: Worker)
    requires WorkerOk(m, w) && Evolves(m, m')
    ensures WorkerOk(m', w)
  {
    if w.snapshot.Some? {
      var prefix := w.snapshot.value[..w.done];
      PickSame(m, m', prefix, IsReleased());
      PickSame(m, m', prefix, IsFailed());
    }
  }

  lemma WorkersFrame(s: State, b: Box)
    requires forall w | w in s.workers :: WorkerOk(s.box.operations, s.workers[w])
    requires Evolves(s.box.operations, b.operations)
    ensures forall w | w in s.workers :: WorkerOk(b.operations, s.workers[w])
  {
    forall w | w in s.workers ensures WorkerOk(b.operations, s.workers[w]) {
      WorkerFrame(s.box.operations, b.operations, s.workers[w]);
    }
  }

  lemma ReleaseEvolves(b: Box, clock: Clock, id: string)
    requires Kept(b)
    ensures var b' := Release(b, clock, id).0; Kept(b') && Evolves(b.operations, b'.operations) && CallsStaged(b, b')
  {
    ReleaseKeeps(b, clock, id);
    if id in b.operations {
      if b.operations[id].status.Staged? { ReleaseExactly(b, clock, id); } else { SettledReleases(b, clock, id); }
    }
  }

  lemma SnapshotOk(b: Box, w: Worker)
    requires Kept(b) && WorkerOk(b.operations, w) && w.snapshot.None?
    ensures WorkerOk(b.operations, w.(snapshot := Some(Pending(b, w.transaction))))
  {
    PendingIs(b, w.transaction);
    var ids := Pending(b, w.transaction);
    forall i | 0 <= i < |ids| ensures IsPending(b, w.transaction, ids[i]) { assert ids[i] in ids; }
    assert ids[..0] == [];
  }

  /** A release that returns adds its record to the worker's tally. */
  lemma TallyGrows(m: map<string, Operation>, w: Worker, op: Operation)
    requires WorkerOk(m, w) && w.snapshot.Some? && w.done < |w.snapshot.value|
    requires m[w.snapshot.value[w.done]] == op && !op.status.Staged?
    ensures WorkerOk(m, w.(done := w.done + 1, summary := Noted(w.summary, op)))
  {
    var ids := w.snapshot.value;
    assert ids[..w.done + 1] == ids[..w.done] + [ids[w.done]];
    assert ids[..w.done + 1][..w.done] == ids[..w.done];
  }

  lemma TurnOk(b: Box, clock: Clock, w: Worker)
    requires Kept(b) && WorkerOk(b.operations, w) && CanTurn(w)
    ensures var (b', w') := Turn(b, clock, w);
      Kept(b') && Evolves(b.operations, b'.operations) && CallsStaged(b, b') && WorkerOk(b'.operations, w')
  {
    var id := w.snapshot.value[w.done];
    var (b', r) := Release(b, clock, id);
    ReleaseEvolves(b, clock, id);
    WorkerFrame(b.operations, b'.operations, w);
    if b.operations[id].status.Staged? { ReleaseExactly(b, clock, id); } else { SettledReleases(b, clock, id); }
    if r.Ok? { TallyGrows(b'.operations, w, r.value); }
  }

  lemma DoKeeps(s: State, clock: Clock, m: Move)
    requires Inv(s)
    ensures var s' := Do(s, clock, m);
      Inv(s') && Evolves(s.box.operations, s'.box.operations) && CallsStaged(s.box, s'.box)
  {
    match m
    case StageMove(id, t, name, arguments, h) =>
      if id !in s.box.operations {
        StageKeeps(s.box, clock, id, t, name, arguments, h);
        WorkersFrame(s, Stage(s.box, clock, id, t, name, arguments, h).0);
      }
    case ReleaseMove(id) =>
      ReleaseEvolves(s.box, clock, id);
      WorkersFrame(s, Release(s.box, clock, id).0);
    case SnapshotMove(w) =>
      if w in s.workers && s.workers[w].snapshot.None? { SnapshotOk(s.box, s.workers[w]); }
    case TurnMove(w) =>
      if w in s.workers && CanTurn(s.workers[w]) {
        TurnOk(s.box, clock, s.workers[w]);
        WorkersFrame(s, Turn(s.box, clock, s.workers[w]).0);
      }
  }

  /** The operation is settled and has been called for. */
  predicate Final(b: Box, id: string) { id in b.operations && !b.operations[id].status.Staged? }

  /** Operations evolve, calls are only added, and none is for a settled operation. */
  ghost predicate Continues(b: Box, b': Box) {
    && Evolves(b.operations, b'.operations) && b.calls <= b'.calls
    && forall id, i | Final(b, id) && |b.calls| <= i < |b'.calls| :: b'.calls[i] != id
  }

  lemma StepContinues(b: Box, mid: Box, end: Box)
    requires Evolves(b.operations, mid.operations) && CallsStaged(b, mid) && Continues(mid, end)
    ensures Continues(b, end)
  {
    forall id, i | Final(b, id) && |b.calls| <= i < |end.calls| ensures end.calls[i] != id {
      assert Final(mid, id);
      if i < |mid.calls| { assert end.calls[i] == mid.calls[i]; }
    }
  }

  lemma {:induction false} RunKeeps(s: State, clock: Clock, schedule: seq<Move>)
    requires Inv(s)
    ensures var s' := Run(s, clock, schedule); Inv(s') && Continues(s.box, s'.box)
    decreases |schedule|
  {
    if schedule != [] {
      var mid := Do(s, clock, schedule[0]);
      DoKeeps(s, clock, schedule[0]);
      RunKeeps(mid, clock, schedule[1..]);
      StepContinues(s.box, mid.box, Run(mid, clock, schedule[1..]).box);
    }
  }

  lemma Reachable(s0: State, clock: Clock, schedule: seq<Move>)
    requires Init(s0)
    ensures Inv(Run(s0, clock, schedule))
  {
    EmptyKept(clock);
    RunKeeps(s0, clock, schedule);
  }

  lemma {:induction false} RunRuns(s: State, clock: Clock, first: seq<Move>, rest: seq<Move>)
    ensures Run(s, clock, first + rest) == Run(Run(s, clock, first), clock, rest)
    decreases |first|
  {
    if first == [] {
      assert first + rest == rest;
    } else {
      assert (first + rest)[1..] == first[1..] + rest;
      RunRuns(Do(s, clock, first[0]), clock, first[1..], rest);
    }
  }

  /** Whatever handlers answer and clocks show: a settled record never changes again, and its
      handler is never called again. */
  lemma SettledIsFinal(s0: State, clock: Clock, schedule: seq<Move>, more: seq<Move>, id: string)
    requires Init(s0) && Final(Run(s0, clock, schedule).box, id)
    ensures var b, b' := Run(s0, clock, schedule).box, Run(s0, clock, schedule + more).box;
      && id in b'.operations && b'.operations[id] == b.operations[id]
      && b.calls <= b'.calls && forall i | |b.calls| <= i < |b'.calls| :: b'.calls[i] != id
  {
    Reachable(s0, clock, schedule);
    RunRuns(s0, clock, schedule, more);
    RunKeeps(Run(s0, clock, schedule), clock, more);
  }

  lemma {:induction false} PickedAre(operations: map<string, Operation>, ids: seq<string>, test: Operation -> bool,
                                     op: Operation)
    requires forall i | 0 <= i < |ids| :: ids[i] in operations
    ensures op in Pick(operations, ids, test) <==> exists i :: 0 <= i < |ids| && operations[ids[i]] == op && test(op)
  {
    if ids != [] {
      var n := |ids| - 1;
      PickedAre(operations, ids[..n], test, op);
      if op in Pick(operations, ids[..n], test) {
        var i :| 0 <= i < n && operations[ids[..n][i]] == op && test(op);
        assert operations[ids[i]] == op;
      }
      if exists i :: 0 <= i < n && operations[ids[i]] == op && test(op) {
        var i :| 0 <= i < n && operations[ids[i]] == op && test(op);
        assert operations[ids[..n][i]] == op;
      }
    }
  }

  /** The record is the one stored under its identifier, and of the transaction. */
  predicate IsStored(b: Box, op: Operation, transaction: string) {
    op.transactionId == transaction && op.operationId in b.operations && b.operations[op.operationId] == op
  }

  lemma PickedIsStored(b: Box, ids: seq<string>, test: Operation -> bool, op: Operation, transaction: string)
    requires Kept(b) && op in Pick(b.operations, ids, test)
    requires forall i | 0 <= i < |ids| :: ids[i] in b.operations && b.operations[ids[i]].transactionId == transaction
    ensures IsStored(b, op, transaction) && test(op)
  {
    PickedAre(b.operations, ids, test, op);
    var i :| 0 <= i < |ids| && b.operations[ids[i]] == op && test(op);
    assert KeptNow(b) && RecordKept(b.operations[ids[i]], ids[i]);
  }

  lemma TalliedAreStored(b: Box, w: Worker, op: Operation)
    requires Kept(b) && WorkerOk(b.operations, w)
    ensures op in w.summary.released ==> op.status.Released? && IsStored(b, op, w.transaction)
    ensures op in w.summary.failed ==> op.status.Failed? && IsStored(b, op, w.transaction)
  {
    if w.snapshot.Some? {
      var ids := w.snapshot.value[..w.done];
      if op in w.summary.released { PickedIsStored(b, ids, IsReleased(), op, w.transaction); }
      if op in w.summary.failed { PickedIsStored(b, ids, IsFailed(), op, w.transaction); }
    }
  }

  /** Every entry of every racing summary is the stored record itself, listed by its status,
      even when another thread released it first. */
  lemma SummariesAreTheRecords(s0: State, clock: Clock, schedule: seq<Move>, w: nat, op: Operation)
    requires Init(s0) && w in Run(s0, clock, schedule).workers
    ensures var s := Run(s0, clock, schedule);
      var worker := s.workers[w];
      && (op in worker.summary.released ==> op.status.Released? && IsStored(s.box, op, worker.transaction))
      && (op in worker.summary.failed ==> op.status.Failed? && IsStored(s.box, op, worker.transaction))
  {
    Reachable(s0, clock, schedule);
    TalliedAreStored(Run(s0, clock, schedule).box, Run(s0, clock, schedule).workers[w], op);
  }

  /** A `release_all` that is through reports every operation of its snapshot, each in the list
      its stored record belongs to, in snapshot order; none is left staged. */
  lemma ThroughReportsAll(s0: State, clock: Clock, schedule: seq<Move>, w: nat)
    requires Init(s0) && w in Run(s0, clock, schedule).workers
    ensures var s := Run(s0, clock, schedule); var worker := s.workers[w];
      worker.snapshot.Some? && worker.done == |worker.snapshot.value| ==>
        && worker.summary == Tally(Summary(worker.transaction, [], []), s.box.operations, worker.snapshot.value)
        && forall id | id in worker.snapshot.value :: Final(s.box, id)
  {
    Reachable(s0, clock, schedule);
    var worker := Run(s0, clock, schedule).workers[w];
    if worker.snapshot.Some? && worker.done == |worker.snapshot.value| {
      assert worker.snapshot.value[..worker.done] == worker.snapshot.value;
    }
  }

  // ---------- at most once ----------

  /** Every handler the schedule stages is one of the given ones. */
  ghost predicate StagesOnly(schedule: seq<Move>, handlers: Handler -> bool) {
    forall i | 0 <= i < |schedule| && schedule[i].StageMove? :: handlers(schedule[i].handler)
  }

  ghost predicate AllAnswerJson(handlers: Handler -> bool) { forall h: Handler | handlers(h) :: AnswersJson(h) }

  ghost predicate OnceInv(s: State, clock: Clock) {
    Inv(s) && Once(s.box, clock) && forall w | w in s.workers :: !s.workers[w].raised
  }

  lemma DoOnce(s: State, clock: Clock, m: Move)
    requires OnceInv(s, clock) && Monotone(clock) && (m.StageMove? ==> AnswersJson(m.handler))
    ensures OnceInv(Do(s, clock, m), clock)
  {
    DoKeeps(s, clock, m);
    match m
    case StageMove(id, t, name, arguments, h) =>
      if id !in s.box.operations { StageOnce(s.box, clock, id, t, name, arguments, h); }
    case ReleaseMove(id) => ReleaseOnce(s.box, clock, id);
    case SnapshotMove(w) =>
    case TurnMove(w) =>
      if w in s.workers && CanTurn(s.workers[w]) {
        assert WorkerOk(s.box.operations, s.workers[w]);
        ReleaseOnce(s.box, clock, s.workers[w].snapshot.value[s.workers[w].done]);
      }
  }

  lemma {:induction false} RunOnce(s: State, clock: Clock, schedule: seq<Move>, handlers: Handler -> bool)
    requires OnceInv(s, clock) && Monotone(clock) && StagesOnly(schedule, handlers) && AllAnswerJson(handlers)
    ensures OnceInv(Run(s, clock, schedule), clock)
    decreases |schedule|
  {
    if schedule != [] {
      if schedule[0].StageMove? { assert handlers(schedule[0].handler); }
      DoOnce(s, clock, schedule[0]);
      assert forall i | 0 <= i < |schedule| - 1 :: schedule[1..][i] == schedule[i + 1];
      RunOnce(Do(s, clock, schedule[0]), clock, schedule[1..], handlers);
    }
  }

  /** When handlers answer JSON or raise and the clock does not run backwards, then whatever
      races: each operation's handler is called at most once, exactly when the operation is
      settled, and no `release_all` raises. */
  lemma HandlerOncePerOperation(s0: State, clock: Clock, schedule: seq<Move>, handlers: Handler -> bool)
    requires Init(s0) && Monotone(clock) && StagesOnly(schedule, handlers) && AllAnswerJson(handlers)
    ensures var s := Run(s0, clock, schedule);
      && Distinct(s.box.calls) && (forall id :: id in s.box.calls <==> Final(s.box, id))
      && forall w | w in s.workers :: !s.workers[w].raised
  {
    EmptyKept(clock);
    RunOnce(s0, clock, schedule, handlers);
    var b := Run(s0, clock, schedule).box;
    assert KeptNow(b) && OnceNow(b, clock);
  }

  // ---------- where at most once ends ----------

  function Name(i: nat): string { seq(i, _ => 'a') }

  /** Stages an operation and releases it at once. */
  function Round(i: nat, h: Handler): seq<Move> { [StageMove(Name(i), "t", "send", [], h), ReleaseMove(Name(i))] }

  lemma RunOne(s: State, clock: Clock, m: Move)
    ensures Run(s, clock, [m]) == Do(s, clock, m)
  {
    assert [m][1..] == [];
  }

  lemma RunTwo(s: State, clock: Clock, m: Move, n: Move)
    ensures Run(s, clock, [m, n]) == Do(Do(s, clock, m), clock, n)
  {
    assert [m, n][1..] == [n];
    RunOne(Do(s, clock, m), clock, n);
  }

  lemma StagedThenReleased(b: Box, clock: Clock, id: string, h: Handler)
    requires Kept(b) && Monotone(clock) && id !in b.operations
    ensures var b' := Release(Stage(b, clock, id, "t", "send", [], h).0, clock, id).0;
      && b'.calls == b.calls + [id] && b'.operations.Keys == b.operations.Keys + {id}
      && id in b'.handlers && b'.handlers[id] == h
      && (Accepts(h(|b.calls|)) <==> !b'.operations[id].status.Staged?)
  {
    var b1 := Stage(b, clock, id, "t", "send", [], h).0;
    assert StagedOperation(id, "t", "send", [], clock(b.ticks)).Buildable();
    StageKeeps(b, clock, id, "t", "send", [], h);
    assert clock(b.ticks) <= clock(b1.ticks);
    ReleaseExactly(b1, clock, id);
  }

  /** A round calls the handler once, and settles the operation if the answer can be recorded. */
  lemma RoundCalls(s: State, clock: Clock, i: nat, h: Handler)
    requires Inv(s) && Monotone(clock) && Name(i) !in s.box.operations
    ensures var b, b' := s.box, Run(s, clock, Round(i, h)).box;
      && b'.calls == b.calls + [Name(i)] && b'.operations.Keys == b.operations.Keys + {Name(i)}
      && Name(i) in b'.handlers && b'.handlers[Name(i)] == h
      && (Accepts(h(|b.calls|)) <==> !b'.operations[Name(i)].status.Staged?)
  {
    RunTwo(s, clock, StageMove(Name(i), "t", "send", [], h), ReleaseMove(Name(i)));
    StagedThenReleased(s.box, clock, Name(i), h);
  }

  function Rounds(n: nat, h: Handler): seq<Move> { if n == 0 then [] else Rounds(n - 1, h) + Round(n - 1, h) }

  /** After n rounds, n handlers have been called, for operations with the first n names. */
  predicate AfterRounds(b: Box, n: nat) { |b.calls| == n && forall id | id in b.operations :: |id| < n }

  lemma RoundAdds(s: State, clock: Clock, n: nat, h: Handler)
    requires Inv(s) && Monotone(clock) && AfterRounds(s.box, n)
    ensures AfterRounds(Run(s, clock, Round(n, h)).box, n + 1)
  {
    assert |Name(n)| == n;
    RoundCalls(s, clock, n, h);
  }

  lemma Resumed(s0: State, clock: Clock, first: seq<Move>, rest: seq<Move>)
    requires Init(s0)
    ensures var s := Run(s0, clock, first); Inv(s) && Run(s0, clock, first + rest) == Run(s, clock, rest)
  {
    Reachable(s0, clock, first);
    RunRuns(s0, clock, first, rest);
  }

  lemma OneMoreRound(s0: State, clock: Clock, before: seq<Move>, n: nat, h: Handler)
    requires Init(s0) && Monotone(clock) && AfterRounds(Run(s0, clock, before).box, n)
    ensures AfterRounds(Run(s0, clock, before + Round(n, h)).box, n + 1)
  {
    Resumed(s0, clock, before, Round(n, h));
    RoundAdds(Run(s0, clock, before), clock, n, h);
  }

  lemma {:induction false} RoundsCall(s0: State, clock: Clock, n: nat, h: Handler)
    requires Init(s0) && Monotone(clock)
    ensures AfterRounds(Run(s0, clock, Rounds(n, h)).box, n)
  {
    if n == 0 {
      assert Run(s0, clock, []) == s0;
    } else {
      RoundsCall(s0, clock, n - 1, h);
      OneMoreRound(s0, clock, Rounds(n - 1, h), n - 1, h);
    }
  }

  /** The last round called the handler, and settled its operation if the answer can be recorded. */
  lemma LastRound(s0: State, clock: Clock, n: nat, h: Handler)
    requires Init(s0) && Monotone(clock)
    ensures var b := Run(s0, clock, Rounds(n + 1, h)).box;
      && |b.calls| == n + 1 && b.calls[n] == Name(n)
      && Name(n) in b.operations && Name(n) in b.handlers && b.handlers[Name(n)] == h
      && (Accepts(h(n)) <==> !b.operations[Name(n)].status.Staged?)
  {
    RoundsCall(s0, clock, n, h);
    Resumed(s0, clock, Rounds(n, h), Round(n, h));
    assert |Name(n)| == n;
    RoundCalls(Run(s0, clock, Rounds(n, h)), clock, n, h);
  }

  lemma {:induction false} RoundsStage(n: nat, h: Handler, handlers: Handler -> bool)
    requires handlers(h)
    ensures StagesOnly(Rounds(n, h), handlers)
  {
    if n > 0 { RoundsStage(n - 1, h, handlers); }
  }

  /** A handler that answers its n-th call with something that is not JSON can be called twice:
      its operation is still staged, and the next release calls the handler again. */
  lemma CalledTwice(s0: State, clock: Clock, n: nat, h: Handler) returns (schedule: seq<Move>)
    requires Init(s0) && Monotone(clock) && !Accepts(h(n))
    ensures schedule == Rounds(n + 1, h) + [ReleaseMove(Name(n))]
    ensures var calls := Run(s0, clock, schedule).box.calls; |calls| == n + 2 && calls[n] == calls[n + 1] == Name(n)
  {
    var again := ReleaseMove(Name(n));
    schedule := Rounds(n + 1, h) + [again];
    LastRound(s0, clock, n, h);
    Resumed(s0, clock, Rounds(n + 1, h), [again]);
    var s := Run(s0, clock, Rounds(n + 1, h));
    RunOne(s, clock, again);
    ReleaseExactly(s.box, clock, Name(n));
  }

  /** Under a clock that does not run backwards, at-most-once release holds in every schedule
      exactly if every handler in use answers JSON or raises. */
  lemma AtMostOnceExactly(s0: State, clock: Clock, handlers: Handler -> bool)
    requires Init(s0) && Monotone(clock)
    ensures (forall schedule | StagesOnly(schedule, handlers) :: Distinct(Run(s0, clock, schedule).box.calls))
       <==> AllAnswerJson(handlers)
  {
    if AllAnswerJson(handlers) {
      forall schedule | StagesOnly(schedule, handlers) ensures Distinct(Run(s0, clock, schedule).box.calls) {
        HandlerOncePerOperation(s0, clock, schedule, handlers);
      }
    } else {
      var h: Handler :| handlers(h) && !AnswersJson(h);
      var n: nat :| !Accepts(h(n));
      var schedule := CalledTwice(s0, clock, n, h);
      RoundsStage(n + 1, h, handlers);
      assert StagesOnly(schedule, handlers);
      var calls := Run(s0, clock, schedule).box.calls;
      assert calls[n] == calls[n + 1];
    }
  }

  /** So a handler that answers something `json.dumps` refuses is called by every release. */
  lemma OpaqueIsCalledTwice(s0: State, clock: Clock)
    requires Init(s0) && Monotone(clock)
    ensures var opaqueHandler: Handler := _ => Some(Opaque);
      var b := Run(s0, clock, Round(0, opaqueHandler) + [ReleaseMove(Name(0))]).box;
      b.calls == [Name(0), Name(0)]
  {
    var h: Handler := _ => Some(Opaque);
    var schedule := CalledTwice(s0, clock, 0, h);
    assert Rounds(1, h) == Round(0, h) by { assert Rounds(0, h) == []; assert [] + Round(0, h) == Round(0, h); }
  }
}
