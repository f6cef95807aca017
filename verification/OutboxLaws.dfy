/** What one call on the outbox keeps, and what `release_all` does when it runs alone. */
module OutboxLaws {
  import opened Json
  import opened AuditLedger
  import opened ExecutionResults
  import opened Outbox

  /** The answer can be recorded: the handler raised, or gave JSON. */
  predicate Accepts(answer: Option<Value>) { answer.None? || IsJson(answer.value) }

  /** The handler only ever raises or answers JSON. */
  ghost predicate AnswersJson(h: Handler) { forall n: nat :: Accepts(h(n)) }

  // ---------- records and events, spelled out ----------

  /** The record of an operation once its handler has answered, field by field. */
  predicate Settled(done: Operation, op: Operation, answer: Option<Value>, now: int) {
    && done.operationId == op.operationId && done.transactionId == op.transactionId
    && done.operationName == op.operationName && done.arguments == op.arguments && done.stagedAt == op.stagedAt
    && done.releasedAt == Some(now)
    && match answer
       case Some(v) => done.status.Released? && done.output == v && done.error.None?
       case None =>
         done.status.Failed? && done.output.Null?
         && done.error
            == Some(FailureDetail("outbox_release_failed", "Staged operation handler raised an exception."))
  }

  /** A staged record has no release time, output or error; a released one has a release time and no
      error, a failed one both, and neither was released before it was staged. */
  lemma ValidExactly(op: Operation)
    ensures op.status.Staged? ==> (op.Valid() <==> op.releasedAt.None? && op.output.Null? && op.error.None?)
    ensures !op.status.Staged? ==>
      (op.Valid() <==>
       op.releasedAt.Some? && op.stagedAt <= op.releasedAt.value && (op.status.Failed? <==> op.error.Some?))
  {
  }

  lemma AnsweredSettles(op: Operation, answer: Option<Value>, now: int)
    ensures Settled(Answered(op, answer, now), op, answer, now)
  {
  }

  /** Staging stores a staged record under the new identifier, with its handler, unless an argument
      is not JSON; then it raises, and only the clock was read. No handler is called. */
  lemma StageExactly(b: Box, clock: Clock, id: string, transaction: string, name: string, arguments: seq<Member>,
                     h: Handler)
    ensures var (b', r) := Stage(b, clock, id, transaction, name, arguments, h);
      && (r.Ok? <==> IsJson(Obj(arguments))) && b'.calls == b.calls && b'.ticks == b.ticks + 1
      && (r.Err? ==> r == Err(InvalidRecord) && b' == b.(ticks := b.ticks + 1))
      && (r.Ok? ==>
            && b'.operations == b.operations[id := r.value] && b'.handlers == b.handlers[id := h]
            && b'.order == (if id in b.operations then b.order else b.order + [id])
            && r.value.operationId == id && r.value.transactionId == transaction && r.value.operationName == name
            && r.value.arguments == arguments && r.value.status.Staged? && r.value.stagedAt == clock(b.ticks)
            && r.value.releasedAt.None? && r.value.output.Null? && r.value.error.None?)
  {
  }

  /** An event names its operation, under the operation's transaction; that of a release tells how
      the release went. */
  lemma EventsTell(operations: map<string, Operation>, id: string)
    requires id in operations
    ensures var op := operations[id];
      && (op.status.Staged? ==>
            EntryFor(OutboxStaged, op)
            == Entry(op.transactionId, OutboxStaged, None, Some(op.transactionId),
                     OfOperation(op.operationId, op.operationName, "staged")))
      && (op.status.Released? ==>
            ReleaseEntry(operations, id)
            == Entry(op.transactionId, OutboxReleased, None, Some(op.transactionId),
                     OfOperation(op.operationId, op.operationName, "released")))
      && (op.status.Failed? ==>
            ReleaseEntry(operations, id)
            == Entry(op.transactionId, OutboxReleaseFailed, None, Some(op.transactionId),
                     OfOperation(op.operationId, op.operationName, "failed")))
  {
  }

  // ---------- what every call keeps ----------

  /** Whatever handlers answer and clocks show: identifiers and records agree, every record can
      be built, a settled operation's handler was called, and only known operations' were. It is
      stated for every box equal to this one, so that the verifier unfolds it only where
      `KeptNow` is mentioned. */
  ghost predicate Kept(b: Box) { forall x {:trigger KeptNow(x)} | x == b :: KeptNow(x) }

  ghost predicate KeptNow(b: Box) {
    && Distinct(b.order)
    && (forall id :: id in b.order <==> id in b.operations)
    && b.handlers.Keys == b.operations.Keys
    && (forall id | id in b.operations :: RecordKept(b.operations[id], id))
    && (forall id | id in b.operations && !b.operations[id].status.Staged? :: id in b.calls)
    && (forall id | id in b.calls :: id in b.operations)
  }

  predicate RecordKept(op: Operation, id: string) { op.operationId == id && op.Buildable() }

  /** With handlers that answer JSON or raise and a clock that does not run backwards: no handler
      was called twice, and none was called for an operation that is still staged. */
  ghost predicate Once(b: Box, clock: Clock) { forall x {:trigger OnceNow(x, clock)} | x == b :: OnceNow(x, clock) }

  ghost predicate OnceNow(b: Box, clock: Clock) {
    && Distinct(b.calls)
    && (forall id | id in b.calls :: id in b.operations && !b.operations[id].status.Staged?)
    && (forall id | id in b.operations :: b.operations[id].stagedAt <= clock(b.ticks))
    && (forall id | id in b.handlers :: AnswersJson(b.handlers[id]))
  }

  lemma EmptyKept(clock: Clock)
    ensures Kept(EMPTY) && Once(EMPTY, clock)
  {
  }

  lemma StageKeeps(b: Box, clock: Clock, id: string, transaction: string, name: string, arguments: seq<Member>,
                   h: Handler)
    requires Kept(b) && id !in b.operations
    ensures Kept(Stage(b, clock, id, transaction, name, arguments, h).0)
  {
    var b' := Stage(b, clock, id, transaction, name, arguments, h).0;
    assert KeptNow(b);
    var op := StagedOperation(id, transaction, name, arguments, clock(b.ticks));
    if op.Buildable() {
      OneMoreOrdered(b.order, b.operations, id, op);
      OneMoreKept(b, b', id, op, h);
    }
  }

  lemma OneMoreKept(b: Box, b': Box, id: string, op: Operation, h: Handler)
    requires KeptNow(b) && id !in b.operations && RecordKept(op, id) && op.status.Staged?
    requires b'.operations == b.operations[id := op]
    requires b'.handlers == b.handlers[id := h] && b'.calls == b.calls
    requires Distinct(b'.order) && forall j :: j in b'.order <==> j in b'.operations
    ensures KeptNow(b')
  {
  }

  lemma OneMoreOrdered(order: seq<string>, operations: map<string, Operation>, id: string, op: Operation)
    requires Distinct(order) && id !in operations && forall j :: j in order <==> j in operations
    ensures Distinct(order + [id]) && forall j :: j in order + [id] <==> j in operations[id := op]
  {
    assert id !in order;
  }

  lemma StageOnce(b: Box, clock: Clock, id: string, transaction: string, name: string, arguments: seq<Member>,
                  h: Handler)
    requires Once(b, clock) && Monotone(clock) && id !in b.operations && AnswersJson(h)
    ensures Once(Stage(b, clock, id, transaction, name, arguments, h).0, clock)
  {
    assert OnceNow(b, clock);
    assert clock(b.ticks) <= clock(b.ticks + 1);
  }

  lemma AnswerBuilds(op: Operation, answer: Option<Value>, now: int)
    requires op.Buildable()
    ensures Answered(op, answer, now).Buildable() <==> Accepts(answer) && op.stagedAt <= now
    ensures !Answered(op, answer, now).status.Staged?
  {
  }

  /** One call, and a new record if there is one. */
  lemma CallRecorded(b: Box, id: string, done: Operation, built: bool)
    requires id in b.operations && b.operations[id].status.Staged? && !done.status.Staged?
    ensures var called := b.(calls := b.calls + [id], ticks := b.ticks + 1);
      var b' := if built then called.(operations := b.operations[id := done]) else called;
      && b'.operations.Keys == b.operations.Keys
      && (forall j | j in b.operations && j != id :: b'.operations[j] == b.operations[j])
      && (built <==> !b'.operations[id].status.Staged?)
      && (built ==> b'.operations[id] == done)
  {
  }

  /** A release of a staged operation calls its handler. It settles the operation exactly if the
      answer can be recorded and the clock has not run backwards since the operation was staged;
      otherwise it raises and the operation is still staged. Nothing else changes. */
  lemma ReleaseExactly(b: Box, clock: Clock, id: string)
    requires Kept(b) && id in b.operations && b.operations[id].status.Staged?
    ensures var (b', r) := Release(b, clock, id);
      && id in b.handlers
      && var answer := b.handlers[id](|b.calls|);
         && b'.calls == b.calls + [id] && b'.ticks == b.ticks + 1
         && b'.order == b.order && b'.handlers == b.handlers && b'.operations.Keys == b.operations.Keys
         && (forall j | j in b.operations && j != id :: b'.operations[j] == b.operations[j])
         && (r.Ok? <==> Accepts(answer) && b.operations[id].stagedAt <= clock(b.ticks))
         && (r.Ok? <==> !b'.operations[id].status.Staged?)
         && (r.Ok? ==> r.value == b'.operations[id] && Settled(r.value, b.operations[id], answer, clock(b.ticks)))
         && (r.Err? ==> r == Err(InvalidRecord) && b'.operations == b.operations)
  {
    assert KeptNow(b);
    assert RecordKept(b.operations[id], id);
    var op, answer := b.operations[id], b.handlers[id](|b.calls|);
    AnswerBuilds(op, answer, clock(b.ticks));
    AnsweredSettles(op, answer, clock(b.ticks));
    CallRecorded(b, id, Answered(op, answer, clock(b.ticks)), Accepts(answer) && op.stagedAt <= clock(b.ticks));
  }

  /** A release of a settled operation returns its record and changes nothing. */
  lemma SettledReleases(b: Box, clock: Clock, id: string)
    requires Kept(b) && id in b.operations && !b.operations[id].status.Staged?
    ensures Release(b, clock, id) == (b, Ok(b.operations[id]))
  {
    assert KeptNow(b);
  }

  lemma ReleaseKeeps(b: Box, clock: Clock, id: string)
    requires Kept(b)
    ensures Kept(Release(b, clock, id).0)
  {
    if id in b.operations {
      assert KeptNow(b);
      assert RecordKept(b.operations[id], id);
    }
  }

  /** Among calls that happen once, a release settles its operation. */
  lemma ReleaseOnce(b: Box, clock: Clock, id: string)
    requires Kept(b) && Once(b, clock) && Monotone(clock)
    ensures Once(Release(b, clock, id).0, clock)
    ensures id in b.operations ==> Release(b, clock, id).1.Ok?
  {
    assert OnceNow(b, clock);
    if id in b.operations {
      if b.operations[id].status.Staged? {
        ReleaseExactly(b, clock, id);
        assert AnswersJson(b.handlers[id]);
        assert clock(b.ticks) <= clock(b.ticks + 1);
      } else {
        SettledReleases(b, clock, id);
      }
    }
  }

  // ---------- picking ----------

  function IsReleased(): Operation -> bool { (op: Operation) => op.status.Released? }

  function IsFailed(): Operation -> bool { (op: Operation) => op.status.Failed? }

  lemma {:induction false} PickAppend(operations: map<string, Operation>, a: seq<string>, b: seq<string>,
                                      test: Operation -> bool)
    ensures Pick(operations, a + b, test) == Pick(operations, a, test) + Pick(operations, b, test)
    decreases |b|
  {
    if b == [] {
      assert a + b == a;
    } else {
      var n := |b| - 1;
      assert (a + b)[..|a| + n] == a + b[..n];
      PickAppend(operations, a, b[..n], test);
    }
  }

  /** Only the listed operations matter. */
  lemma {:induction false} PickSame(m: map<string, Operation>, m': map<string, Operation>, ids: seq<string>,
                                    test: Operation -> bool)
    requires forall i | 0 <= i < |ids| :: ids[i] in m && ids[i] in m' && m[ids[i]] == m'[ids[i]]
    ensures Pick(m, ids, test) == Pick(m', ids, test)
  {
    if ids != [] { PickSame(m, m', ids[..|ids| - 1], test); }
  }

  // ---------- listing ----------

  /** The operations under these identifiers whose transaction is the one asked for, if one is. */
  function InTransaction(b: Box, ids: seq<string>, transaction: Option<string>): seq<Operation>
    requires forall id | id in ids :: id in b.operations
  {
    if ids == [] then []
    else
      var n := |ids| - 1;
      var op := b.operations[ids[n]];
      InTransaction(b, ids[..n], transaction)
      + (match transaction case Some(t) => if op.transactionId == t then [op] else [] case None => [op])
  }

  lemma {:induction false} PickIs(b: Box, ids: seq<string>, transaction: Option<string>)
    requires forall id | id in ids :: id in b.operations
    ensures Pick(b.operations, ids, OfTransaction(transaction)) == InTransaction(b, ids, transaction)
  {
    if ids != [] { PickIs(b, ids[..|ids| - 1], transaction); }
  }

  lemma {:induction false} AllAreListed(b: Box, ids: seq<string>)
    requires forall id | id in ids :: id in b.operations
    ensures var all := InTransaction(b, ids, None);
      |all| == |ids| && forall i | 0 <= i < |ids| :: all[i] == b.operations[ids[i]]
  {
    if ids != [] { AllAreListed(b, ids[..|ids| - 1]); }
  }

  /** Asked for a transaction, the list is its operations; asked for none, it is every operation.
      Either way it is in insertion order. */
  lemma ListedIs(b: Box, transaction: string)
    requires Kept(b)
    ensures forall id | id in b.order :: id in b.operations
    ensures Listed(b, Some(transaction)) == InTransaction(b, b.order, Some(transaction))
    ensures var all := Listed(b, None);
      |all| == |b.order| && forall i | 0 <= i < |b.order| :: all[i] == b.operations[b.order[i]]
  {
    assert KeptNow(b);
    PickIs(b, b.order, Some(transaction));
    PickIs(b, b.order, None);
    AllAreListed(b, b.order);
  }

  // ---------- the snapshot ----------

  predicate InOrder(ids: seq<string>, order: seq<string>) {
    ids == []
    || (order != []
        && (InOrder(ids, order[..|order| - 1])
            || (ids[|ids| - 1] == order[|order| - 1] && InOrder(ids[..|ids| - 1], order[..|order| - 1]))))
  }

  predicate IsPending(b: Box, transaction: string, id: string) {
    id in b.operations && b.operations[id].transactionId == transaction && b.operations[id].status.Staged?
  }

  function PendingIn(b: Box, transaction: string, order: seq<string>): seq<string> {
    if order == [] then []
    else
      var n := |order| - 1;
      PendingIn(b, transaction, order[..n]) + (if IsPending(b, transaction, order[n]) then [order[n]] else [])
  }

  lemma {:induction false} SnapshotIs(b: Box, transaction: string, order: seq<string>)
    requires forall id | id in b.operations :: b.operations[id].operationId == id
    ensures StagedIds(Pick(b.operations, order, OfTransaction(Some(transaction)))) == PendingIn(b, transaction, order)
  {
    if order != [] {
      var n := |order| - 1;
      var before := Pick(b.operations, order[..n], OfTransaction(Some(transaction)));
      SnapshotIs(b, transaction, order[..n]);
      if order[n] in b.operations && b.operations[order[n]].transactionId == transaction {
        var all := before + [b.operations[order[n]]];
        assert all[..|all| - 1] == before;
      } else {
        assert before + [] == before;
      }
    }
  }

  lemma {:induction false} PendingMembers(b: Box, transaction: string, order: seq<string>, id: string)
    ensures id in PendingIn(b, transaction, order) <==> id in order && IsPending(b, transaction, id)
  {
    if order != [] {
      var n := |order| - 1;
      PendingMembers(b, transaction, order[..n], id);
      assert order == order[..n] + [order[n]];
    }
  }

  lemma {:induction false} PendingOrdered(b: Box, transaction: string, order: seq<string>)
    requires Distinct(order)
    ensures InOrder(PendingIn(b, transaction, order), order) && Distinct(PendingIn(b, transaction, order))
  {
    if order != [] {
      var n := |order| - 1;
      var before := PendingIn(b, transaction, order[..n]);
      PendingOrdered(b, transaction, order[..n]);
      PendingMembers(b, transaction, order[..n], order[n]);
      if IsPending(b, transaction, order[n]) {
        assert (before + [order[n]])[..|before|] == before;
      } else {
        assert before + [] == before;
      }
    }
  }

  /** The snapshot lists exactly the transaction's staged operations, once each, in the order
      they were inserted. */
  lemma PendingIs(b: Box, transaction: string)
    requires Kept(b)
    ensures var ids := Pending(b, transaction);
      InOrder(ids, b.order) && Distinct(ids) && forall id :: id in ids <==> IsPending(b, transaction, id)
  {
    assert KeptNow(b);
    forall id | id in b.operations ensures b.operations[id].operationId == id {
      assert RecordKept(b.operations[id], id);
    }
    SnapshotIs(b, transaction, b.order);
    PendingOrdered(b, transaction, b.order);
    forall id ensures id in Pending(b, transaction) <==> IsPending(b, transaction, id) {
      PendingMembers(b, transaction, b.order, id);
    }
  }

  // ---------- release_all, run alone ----------

  ghost predicate AllStaged(b: Box, ids: seq<string>) {
    Distinct(ids) && forall id | id in ids :: id in b.operations && id in b.handlers && b.operations[id].status.Staged?
  }

  /** What releasing some staged operations leaves alone. */
  ghost predicate OthersSame(b: Box, b': Box, ids: seq<string>) {
    && b'.order == b.order && b'.handlers == b.handlers && b'.operations.Keys == b.operations.Keys
    && forall id | id in b.operations && id !in ids :: b'.operations[id] == b.operations[id]
  }

  /** The answer of the i-th operation's handler, when the operations are released in turn. */
  function AnswerAt(b: Box, ids: seq<string>, i: nat): Option<Value>
    requires i < |ids| && ids[i] in b.handlers
  {
    b.handlers[ids[i]](|b.calls| + i)
  }

  /** Released in turn, the i-th operation settles. */
  predicate Settles(b: Box, clock: Clock, ids: seq<string>, i: nat)
    requires i < |ids| && ids[i] in b.handlers && ids[i] in b.operations
  {
    Accepts(AnswerAt(b, ids, i)) && b.operations[ids[i]].stagedAt <= clock(b.ticks + i)
  }

  ghost predicate AllSettle(b: Box, clock: Clock, ids: seq<string>) {
    AllStaged(b, ids) && forall i | 0 <= i < |ids| :: Settles(b, clock, ids, i)
  }

  lemma EachStep(b: Box, clock: Clock, ids: seq<string>, s: Summary) returns (b1: Box, op: Operation)
    requires Kept(b) && AllStaged(b, ids) && ids != [] && Settles(b, clock, ids, 0)
    ensures ReleaseEach(b, clock, ids, s) == ReleaseEach(b1, clock, ids[1..], Noted(s, op))
    ensures Kept(b1) && AllStaged(b1, ids[1..]) && OthersSame(b, b1, [ids[0]])
    ensures b1.calls == b.calls + [ids[0]] && b1.ticks == b.ticks + 1
    ensures ids[0] in b1.operations && b1.operations[ids[0]] == op && !op.status.Staged?
    ensures Settled(op, b.operations[ids[0]], AnswerAt(b, ids, 0), clock(b.ticks))
    ensures ids[0] !in ids[1..]
  {
    ReleaseExactly(b, clock, ids[0]);
    ReleaseKeeps(b, clock, ids[0]);
    b1 := Release(b, clock, ids[0]).0;
    op := b1.operations[ids[0]];
  }

  lemma LaterSettle(b: Box, b1: Box, clock: Clock, ids: seq<string>, i: nat)
    requires ids != [] && AllStaged(b, ids) && AllStaged(b1, ids[1..]) && OthersSame(b, b1, [ids[0]])
    requires b1.calls == b.calls + [ids[0]] && b1.ticks == b.ticks + 1 && ids[0] !in ids[1..]
    requires i < |ids| - 1
    ensures ids[i + 1] == ids[1..][i] && b1.operations[ids[i + 1]] == b.operations[ids[i + 1]]
    ensures AnswerAt(b1, ids[1..], i) == AnswerAt(b, ids, i + 1)
    ensures Settles(b1, clock, ids[1..], i) <==> Settles(b, clock, ids, i + 1)
  {
    assert ids[1..][i] in ids[1..];
  }

  lemma RestSettle(b: Box, b1: Box, clock: Clock, ids: seq<string>)
    requires ids != [] && AllSettle(b, clock, ids) && AllStaged(b1, ids[1..]) && OthersSame(b, b1, [ids[0]])
    requires b1.calls == b.calls + [ids[0]] && b1.ticks == b.ticks + 1 && ids[0] !in ids[1..]
    ensures AllSettle(b1, clock, ids[1..])
  {
    forall i | 0 <= i < |ids| - 1 ensures Settles(b1, clock, ids[1..], i) { LaterSettle(b, b1, clock, ids, i); }
  }

  lemma {:induction false} EachKeeps(b: Box, clock: Clock, ids: seq<string>, s: Summary)
    requires Kept(b) && AllSettle(b, clock, ids)
    ensures var b' := ReleaseEach(b, clock, ids, s).0; Kept(b') && OthersSame(b, b', ids) && b'.calls == b.calls + ids
    decreases |ids|
  {
    if ids == [] {
      assert b.calls + ids == b.calls;
    } else {
      var b1, op := EachStep(b, clock, ids, s);
      RestSettle(b, b1, clock, ids);
      EachKeeps(b1, clock, ids[1..], Noted(s, op));
      Joined(b, b1, ReleaseEach(b, clock, ids, s).0, ids);
    }
  }

  lemma Joined(b: Box, b1: Box, b2: Box, ids: seq<string>)
    requires ids != [] && OthersSame(b, b1, [ids[0]]) && OthersSame(b1, b2, ids[1..])
    requires b1.calls == b.calls + [ids[0]] && b2.calls == b1.calls + ids[1..]
    ensures OthersSame(b, b2, ids) && b2.calls == b.calls + ids
  {
    assert ids == [ids[0]] + ids[1..];
  }

  lemma HeadAnswers(b: Box, clock: Clock, ids: seq<string>, s: Summary)
    requires Kept(b) && ids != [] && AllSettle(b, clock, ids)
    ensures var b' := ReleaseEach(b, clock, ids, s).0;
      ids[0] in b'.operations
      && Settled(b'.operations[ids[0]], b.operations[ids[0]], AnswerAt(b, ids, 0), clock(b.ticks))
  {
    var b1, op := EachStep(b, clock, ids, s);
    RestSettle(b, b1, clock, ids);
    EachKeeps(b1, clock, ids[1..], Noted(s, op));
  }

  /** What the i-th operation's record becomes. */
  ghost predicate BecomesAnswered(b: Box, b': Box, clock: Clock, ids: seq<string>, i: nat)
    requires i < |ids| && ids[i] in b.handlers && ids[i] in b.operations
  {
    ids[i] in b'.operations
    && Settled(b'.operations[ids[i]], b.operations[ids[i]], AnswerAt(b, ids, i), clock(b.ticks + i))
  }

  lemma {:induction false} EachAnswers(b: Box, clock: Clock, ids: seq<string>, s: Summary, i: nat)
    requires Kept(b) && AllSettle(b, clock, ids) && i < |ids|
    ensures BecomesAnswered(b, ReleaseEach(b, clock, ids, s).0, clock, ids, i)
    decreases |ids|
  {
    if i == 0 {
      HeadAnswers(b, clock, ids, s);
    } else {
      var b1, op := EachStep(b, clock, ids, s);
      RestSettle(b, b1, clock, ids);
      EachAnswers(b1, clock, ids[1..], Noted(s, op), i - 1);
      LaterAnswered(b, b1, ReleaseEach(b, clock, ids, s).0, clock, ids, i - 1);
    }
  }

  lemma LaterAnswered(b: Box, b1: Box, b': Box, clock: Clock, ids: seq<string>, i: nat)
    requires ids != [] && AllStaged(b, ids) && AllStaged(b1, ids[1..]) && OthersSame(b, b1, [ids[0]])
    requires b1.calls == b.calls + [ids[0]] && b1.ticks == b.ticks + 1 && ids[0] !in ids[1..]
    requires i < |ids| - 1 && BecomesAnswered(b1, b', clock, ids[1..], i)
    ensures BecomesAnswered(b, b', clock, ids, i + 1)
  {
    LaterSettle(b, b1, clock, ids, i);
  }

  /** A summary grown by the stored records of the operations, by status. */
  function Tally(s: Summary, operations: map<string, Operation>, ids: seq<string>): Summary {
    Summary(s.transactionId,
            s.released + Pick(operations, ids, IsReleased()),
            s.failed + Pick(operations, ids, IsFailed()))
  }

  lemma TallyNoted(s: Summary, operations: map<string, Operation>, id: string, rest: seq<string>, op: Operation)
    requires id in operations && operations[id] == op && !op.status.Staged?
    ensures Tally(Noted(s, op), operations, rest) == Tally(s, operations, [id] + rest)
  {
    PickAppend(operations, [id], rest, IsReleased());
    PickAppend(operations, [id], rest, IsFailed());
    assert [id][..0] == [];
  }

  lemma {:induction false} EachSummaries(b: Box, clock: Clock, ids: seq<string>, s: Summary)
    requires Kept(b) && AllSettle(b, clock, ids)
    ensures var (b', r) := ReleaseEach(b, clock, ids, s); r == Ok(Tally(s, b'.operations, ids))
    decreases |ids|
  {
    if ids == [] {
      assert s.released + [] == s.released && s.failed + [] == s.failed;
    } else {
      var b1, op := EachStep(b, clock, ids, s);
      RestSettle(b, b1, clock, ids);
      EachKeeps(b1, clock, ids[1..], Noted(s, op));
      EachSummaries(b1, clock, ids[1..], Noted(s, op));
      EachTally(b1, ReleaseEach(b, clock, ids, s).0, ids, s, op);
    }
  }

  lemma EachTally(b1: Box, b': Box, ids: seq<string>, s: Summary, op: Operation)
    requires ids != [] && ids[0] in b1.operations && b1.operations[ids[0]] == op && !op.status.Staged?
    requires OthersSame(b1, b', ids[1..]) && ids[0] !in ids[1..]
    ensures Tally(Noted(s, op), b'.operations, ids[1..]) == Tally(s, b'.operations, ids)
  {
    TallyNoted(s, b'.operations, ids[0], ids[1..], op);
    assert ids == [ids[0]] + ids[1..];
  }

  lemma PendingStaged(b: Box, transaction: string)
    requires Kept(b)
    ensures AllStaged(b, Pending(b, transaction))
  {
    assert KeptNow(b);
    PendingIs(b, transaction);
  }

  /** `release_all` alone, when every pending operation settles: it calls the handlers of exactly
      the transaction's staged operations, once each and in insertion order; sorts their records
      into released and failed, each in that order; leaves nothing of the transaction staged; and
      leaves every other record, the insertion order and the handlers as they were. */
  lemma ReleaseAllAlone(b: Box, clock: Clock, transaction: string)
    requires Kept(b) && AllSettle(b, clock, Pending(b, transaction))
    ensures var ids := Pending(b, transaction);
      var (b', r) := ReleaseEach(b, clock, ids, Summary(transaction, [], []));
      && Kept(b') && b'.calls == b.calls + ids && OthersSame(b, b', ids)
      && r == Ok(Tally(Summary(transaction, [], []), b'.operations, ids))
      && Pending(b', transaction) == []
  {
    var ids, s := Pending(b, transaction), Summary(transaction, [], []);
    EachKeeps(b, clock, ids, s);
    EachSummaries(b, clock, ids, s);
    AllSettled(b, clock, ids, s);
    NothingPending(b, ReleaseEach(b, clock, ids, s).0, transaction);
  }

  /** Each pending operation's record becomes what its handler answered to its one call. */
  lemma ReleaseAllAnswers(b: Box, clock: Clock, transaction: string, i: nat)
    requires Kept(b) && AllSettle(b, clock, Pending(b, transaction)) && i < |Pending(b, transaction)|
    ensures var ids := Pending(b, transaction);
      var b' := ReleaseEach(b, clock, ids, Summary(transaction, [], [])).0;
      ids[i] in b.operations && ids[i] in b.handlers && BecomesAnswered(b, b', clock, ids, i)
  {
    EachAnswers(b, clock, Pending(b, transaction), Summary(transaction, [], []), i);
  }

  lemma {:induction false} PickMembers(m: map<string, Operation>, ids: seq<string>, test: Operation -> bool,
                                       op: Operation)
    ensures op in Pick(m, ids, test)
       <==> exists i :: 0 <= i < |ids| && ids[i] in m && test(m[ids[i]]) && op == m[ids[i]]
  {
    if ids != [] {
      var n := |ids| - 1;
      PickMembers(m, ids[..n], test, op);
      if i :| 0 <= i < |ids| && ids[i] in m && test(m[ids[i]]) && op == m[ids[i]] {
        assert i < n ==> ids[..n][i] == ids[i];
      }
    }
  }

  /** The operation's record is among those sorted by its status. */
  lemma Sorted(operations: map<string, Operation>, ids: seq<string>, i: nat)
    requires i < |ids| && ids[i] in operations && !operations[ids[i]].status.Staged?
    ensures var op := operations[ids[i]];
      && (op in Pick(operations, ids, IsReleased()) <==> op.status.Released?)
      && (op in Pick(operations, ids, IsFailed()) <==> op.status.Failed?)
  {
    PickMembers(operations, ids, IsReleased(), operations[ids[i]]);
    PickMembers(operations, ids, IsFailed(), operations[ids[i]]);
  }

  /** The summary names the transaction and lists nothing but pending operations: as released
      exactly those whose handler answered, as failed exactly those whose handler raised. */
  lemma ReleaseAllSorts(b: Box, clock: Clock, transaction: string)
    requires Kept(b) && AllSettle(b, clock, Pending(b, transaction))
    ensures var ids := Pending(b, transaction);
      var (b', r) := ReleaseEach(b, clock, ids, Summary(transaction, [], []));
      && r.Ok? && r.value.transactionId == transaction
      && (forall i | 0 <= i < |ids| ::
            && ids[i] in b'.operations && ids[i] in b.handlers
            && (b'.operations[ids[i]] in r.value.released <==> AnswerAt(b, ids, i).Some?)
            && (b'.operations[ids[i]] in r.value.failed <==> AnswerAt(b, ids, i).None?))
      && (forall op | op in r.value.released + r.value.failed :: op.operationId in ids)
  {
    var ids, s := Pending(b, transaction), Summary(transaction, [], []);
    var (b', r) := ReleaseEach(b, clock, ids, s);
    ReleaseAllAlone(b, clock, transaction);
    assert [] + Pick(b'.operations, ids, IsReleased()) == r.value.released;
    assert [] + Pick(b'.operations, ids, IsFailed()) == r.value.failed;
    forall i | 0 <= i < |ids|
      ensures ids[i] in b'.operations && ids[i] in b.handlers
      ensures b'.operations[ids[i]] in r.value.released <==> AnswerAt(b, ids, i).Some?
      ensures b'.operations[ids[i]] in r.value.failed <==> AnswerAt(b, ids, i).None?
    {
      ReleaseAllAnswers(b, clock, transaction, i);
      Sorted(b'.operations, ids, i);
    }
    forall op | op in r.value.released + r.value.failed ensures op.operationId in ids { ListedIsPending(b', ids, op); }
  }

  lemma ListedIsPending(b: Box, ids: seq<string>, op: Operation)
    requires Kept(b)
    requires op in Pick(b.operations, ids, IsReleased()) || op in Pick(b.operations, ids, IsFailed())
    ensures op.operationId in ids
  {
    assert KeptNow(b);
    PickMembers(b.operations, ids, IsReleased(), op);
    PickMembers(b.operations, ids, IsFailed(), op);
    var i :| 0 <= i < |ids| && ids[i] in b.operations && op == b.operations[ids[i]];
    assert RecordKept(b.operations[ids[i]], ids[i]);
  }

  lemma AllSettled(b: Box, clock: Clock, ids: seq<string>, s: Summary)
    requires Kept(b) && AllSettle(b, clock, ids)
    ensures var b' := ReleaseEach(b, clock, ids, s).0;
      forall id | id in ids :: id in b'.operations && !b'.operations[id].status.Staged?
  {
    var b' := ReleaseEach(b, clock, ids, s).0;
    forall id | id in ids ensures id in b'.operations && !b'.operations[id].status.Staged? {
      var i :| 0 <= i < |ids| && ids[i] == id;
      EachAnswers(b, clock, ids, s, i);
    }
  }

  lemma NothingPending(b: Box, b': Box, transaction: string)
    requires Kept(b) && Kept(b') && OthersSame(b, b', Pending(b, transaction))
    requires forall id | id in Pending(b, transaction) :: id in b'.operations && !b'.operations[id].status.Staged?
    ensures Pending(b', transaction) == []
  {
    PendingIs(b, transaction);
    PendingIs(b', transaction);
    if Pending(b', transaction) != [] {
      NotPending(b, b', transaction, Pending(b', transaction)[0]);
    }
  }

  lemma NotPending(b: Box, b': Box, transaction: string, id: string)
    requires OthersSame(b, b', Pending(b, transaction))
    requires id in Pending(b, transaction) <==> IsPending(b, transaction, id)
    requires id in Pending(b, transaction) ==> id in b'.operations && !b'.operations[id].status.Staged?
    ensures !IsPending(b', transaction, id)
  {
  }

  // ---------- release_all, cut short ----------

  predicate SettledIn(b: Box, ids: seq<string>) {
    forall id | id in ids :: id in b.operations && !b.operations[id].status.Staged?
  }

  /** If the k-th pending operation is the first that does not settle, `release_all` raises there:
      the handlers up to and including its own have been called, only the operations before it
      are settled, and it and all after it are still staged. */
  lemma {:induction false} EachStops(b: Box, clock: Clock, ids: seq<string>, s: Summary, k: nat)
    requires Kept(b) && AllStaged(b, ids) && k < |ids|
    requires (forall i | 0 <= i < k :: Settles(b, clock, ids, i)) && !Settles(b, clock, ids, k)
    ensures var (b', r) := ReleaseEach(b, clock, ids, s);
      && r == Err(InvalidRecord) && Kept(b')
      && b'.calls == b.calls + ids[..k + 1]
      && OthersSame(b, b', ids[..k]) && SettledIn(b', ids[..k])
    decreases |ids|
  {
    if k == 0 {
      ReleaseExactly(b, clock, ids[0]);
      ReleaseKeeps(b, clock, ids[0]);
      assert ids[..1] == [ids[0]];
    } else {
      var b1, op := EachStep(b, clock, ids, s);
      forall i | 0 <= i < |ids| - 1 ensures Settles(b1, clock, ids[1..], i) <==> Settles(b, clock, ids, i + 1) {
        LaterSettle(b, b1, clock, ids, i);
      }
      EachStops(b1, clock, ids[1..], Noted(s, op), k - 1);
      StoppedLater(b, b1, ReleaseEach(b, clock, ids, s).0, ids, k);
    }
  }

  lemma StoppedLater(b: Box, b1: Box, b2: Box, ids: seq<string>, k: nat)
    requires 0 < k < |ids| && OthersSame(b, b1, [ids[0]]) && OthersSame(b1, b2, ids[1..][..k - 1])
    requires b1.calls == b.calls + [ids[0]] && b2.calls == b1.calls + ids[1..][..k]
    requires SettledIn(b1, [ids[0]]) && SettledIn(b2, ids[1..][..k - 1]) && ids[0] !in ids[1..]
    ensures OthersSame(b, b2, ids[..k]) && b2.calls == b.calls + ids[..k + 1] && SettledIn(b2, ids[..k])
  {
    assert ids[..k] == [ids[0]] + ids[1..][..k - 1] && ids[..k + 1] == [ids[0]] + ids[1..][..k];
  }

  lemma FirstUnsettled(b: Box, clock: Clock, ids: seq<string>, n: nat) returns (k: nat)
    requires AllStaged(b, ids) && n < |ids| && !Settles(b, clock, ids, n)
    ensures k <= n && !Settles(b, clock, ids, k) && forall i | 0 <= i < k :: Settles(b, clock, ids, i)
  {
    k := 0;
    while Settles(b, clock, ids, k)
      invariant k <= n && forall i | 0 <= i < k :: Settles(b, clock, ids, i)
      decreases n - k
    {
      k := k + 1;
    }
  }

  /** `release_all` alone returns a summary exactly if every pending operation settles. */
  lemma ReleaseAllReturnsExactly(b: Box, clock: Clock, transaction: string)
    requires Kept(b)
    ensures var ids := Pending(b, transaction);
      ReleaseEach(b, clock, ids, Summary(transaction, [], [])).1.Ok? <==> AllSettle(b, clock, ids)
  {
    var ids, s := Pending(b, transaction), Summary(transaction, [], []);
    PendingStaged(b, transaction);
    if AllSettle(b, clock, ids) {
      EachSummaries(b, clock, ids, s);
    } else {
      var n :| 0 <= n < |ids| && !Settles(b, clock, ids, n);
      var k := FirstUnsettled(b, clock, ids, n);
      EachStops(b, clock, ids, s, k);
    }
  }

  /** Handlers that answer JSON or raise, under a clock that does not run backwards, always
      settle their operations. */
  lemma OnceSettles(b: Box, clock: Clock, ids: seq<string>)
    requires Kept(b) && Once(b, clock) && Monotone(clock) && AllStaged(b, ids)
    ensures AllSettle(b, clock, ids)
  {
    assert OnceNow(b, clock);
    forall i | 0 <= i < |ids| ensures Settles(b, clock, ids, i) {
      assert ids[i] in ids && AnswersJson(b.handlers[ids[i]]);
      assert clock(b.ticks) <= clock(b.ticks + i);
    }
  }
}
