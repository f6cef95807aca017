/** Any number of calls over one registry, one record map and one ledger, interleaved step
    by step in every possible order. */
module ConcurrentRuntime {
  import opened Json
  import opened Contracts
  import opened AuditLedger
  import opened Idempotency
  import opened ExecutionResults
  import opened Pipeline
  import opened CallInvariant

  datatype Thread = Thread(call: Call, local: Local)

  datatype State = State(shared: Shared, threads: map<Tid, Thread>)

  /** The scheduler lets one call take a step, or a tool is registered meanwhile. */
  datatype Move = Turn(tid: Tid) | Register(contract: ToolContract)

  function Put(s: State, t: Tid, sh: Shared, l: Local): State
    requires t in s.threads
  {
    State(sh, s.threads[t := Thread(s.threads[t].call, l)])
  }

  function Do(s: State, m: Move): State {
    match m
    case Turn(t) =>
      if t !in s.threads then s
      else
        var (sh, l) := Advance(s.shared, s.threads[t].call, s.threads[t].local, t);
        Put(s, t, sh, l)
    case Register(k) =>
      if k.name in s.shared.registry then s
      else s.(shared := s.shared.(registry := s.shared.registry[k.name := k]))
  }

  function Run(s: State, schedule: seq<Move>): State
    decreases |schedule|
  {
    if schedule == [] then s else Run(Do(s, schedule[0]), schedule[1..])
  }

  /** Nothing has happened yet: any tools, any set of calls about to be made. */
  ghost predicate Init(s: State) {
    && s.shared.records == map[] && s.shared.ledger == [] && s.shared.authors == [] && s.shared.calls == []
    && forall t | t in s.threads :: s.threads[t].local == FRESH && s.threads[t].call.script.Plausible()
  }

  // ---------- the invariant ----------

  predicate HoldsKey(th: Thread, k: string) { Holds(th.local) && th.local.claim.value.record.key == k }

  ghost predicate ThreadsOk(s: State) {
    forall t | t in s.threads ::
      s.threads[t].call.script.Plausible() && CallOk(s.shared, s.threads[t].call, s.threads[t].local, t)
  }

  /** Every record has exactly one call that claimed it. */
  ghost predicate OwnersOk(s: State) {
    && (forall k | k in s.shared.records :: exists t :: t in s.threads && HoldsKey(s.threads[t], k))
    && (forall t, u, k | t in s.threads && u in s.threads && HoldsKey(s.threads[t], k) && HoldsKey(s.threads[u], k) ::
          t == u)
  }

  /** A handler call was made by a call that had stored its start before it. */
  predicate CallEntryOk(s: State, h: HandlerCall) {
    && h.caller in s.threads
    && var th := s.threads[h.caller];
       && th.local.ran && h.key == th.call.action.idempotencyKey
       && th.local.startedAt.Some? && th.local.startedAt.value < h.ledgerLength <= |s.shared.ledger|
  }

  ghost predicate CallsOk(s: State) {
    && (forall i | 0 <= i < |s.shared.calls| :: CallEntryOk(s, s.shared.calls[i]))
    && (forall i, j | 0 <= i < j < |s.shared.calls| :: s.shared.calls[i].caller != s.shared.calls[j].caller)
    && (forall t | t in s.threads && s.threads[t].local.ran ::
          exists i :: 0 <= i < |s.shared.calls| && s.shared.calls[i].caller == t)
  }

  /** The events of one call, as the ledger holds them. */
  function Projection(ledger: seq<LedgerEvent>, authors: seq<Tid>, t: Tid): seq<EventKind>
    requires |ledger| == |authors|
  {
    if ledger == [] then []
    else
      var n := |ledger| - 1;
      Projection(ledger[..n], authors[..n], t) + (if authors[n] == t then [ledger[n].entry.kind] else [])
  }

  /** Every event has an author, and each call's events are those of its appends that did not
      fail, in order. */
  ghost predicate EventsOk(s: State) {
    && |s.shared.ledger| == |s.shared.authors| && Numbered(s.shared.ledger)
    && (forall i | 0 <= i < |s.shared.authors| :: s.shared.authors[i] in s.threads)
    && forall t | t in s.threads ::
         Projection(s.shared.ledger, s.shared.authors, t) == Surviving(s.threads[t].call, s.threads[t].local.trail)
  }

  ghost predicate Inv(s: State) {
    ThreadsOk(s) && RecordsOk(s.shared.records) && OwnersOk(s) && CallsOk(s) && EventsOk(s)
  }

  /** What the invariant says about one call's claim. */
  lemma ClaimFacts(s: State, t: Tid)
    requires ThreadsOk(s) && t in s.threads
    ensures s.threads[t].call.script.Plausible()
    ensures ClaimShape(s.threads[t].call, s.threads[t].local)
    ensures ClaimOk(s.shared.records, s.threads[t].call, s.threads[t].local)
  {
    assert CallOk(s.shared, s.threads[t].call, s.threads[t].local, t);
    assert LocalFacts(s.shared.registry, s.threads[t].call, s.threads[t].local);
  }

  /** What it says about the call's variables alone. */
  lemma OwnFacts(s: State, t: Tid)
    requires ThreadsOk(s) && t in s.threads
    ensures s.threads[t].call.script.Plausible()
    ensures LocalFacts(s.shared.registry, s.threads[t].call, s.threads[t].local)
  {
    assert CallOk(s.shared, s.threads[t].call, s.threads[t].local, t);
  }

  /** What it says about the call's own places in the ledger. */
  lemma PlaceFacts(s: State, t: Tid)
    requires ThreadsOk(s) && t in s.threads
    ensures PlacesKnown(s.threads[t].local) && PlacesOk(s.shared, s.threads[t].local, t)
    ensures s.threads[t].local.pc.Start? ==> s.threads[t].local.startedAt.None?
  {
    assert CallOk(s.shared, s.threads[t].call, s.threads[t].local, t);
    OwnFacts(s, t);
  }

  // ---------- other calls are not disturbed ----------

  /** Records change at one key at most, which is free or in progress. */
  predicate RecordsStep(before: Records, after: Records, k: Option<string>) {
    && (forall j | j in before :: j in after && (k != Some(j) ==> after[j] == before[j]))
    && (k.Some? && k.value in before ==> before[k.value].status.InProgress?)
  }

  lemma ClaimFrame(before: Records, after: Records, k: Option<string>, c: Call, l: Local)
    requires RecordsStep(before, after, k) && ClaimOk(before, c, l)
    requires Holds(l) && k == Some(l.claim.value.record.key) ==> k.value !in before
    ensures ClaimOk(after, c, l)
  {
  }

  lemma LocalFrame(registry: map<string, ToolContract>, registry': map<string, ToolContract>, c: Call, l: Local)
    requires LocalOk(registry, c, l) && forall n | n in registry :: n in registry' && registry'[n] == registry[n]
    ensures LocalOk(registry', c, l)
  {
    assert LocalFacts(registry, c, l);
  }

  lemma PlacesFrame(sh: Shared, sh': Shared, l: Local, t: Tid)
    requires PlacesOk(sh, l, t) && sh.ledger <= sh'.ledger && sh.authors <= sh'.authors
    ensures PlacesOk(sh', l, t)
  {
  }

  /** Every call but the one that stepped keeps its invariant. */
  lemma OthersKeep(s: State, t: Tid, sh: Shared, l: Local, k: Option<string>)
    requires ThreadsOk(s) && t in s.threads && CallOk(sh, s.threads[t].call, l, t)
    requires sh.registry == s.shared.registry && s.shared.ledger <= sh.ledger && s.shared.authors <= sh.authors
    requires RecordsStep(s.shared.records, sh.records, k)
    requires k.Some? ==>
      forall u | u in s.threads && u != t && HoldsKey(s.threads[u], k.value) :: k.value !in s.shared.records
    ensures ThreadsOk(Put(s, t, sh, l))
  {
    var s' := Put(s, t, sh, l);
    forall u | u in s'.threads
      ensures s'.threads[u].call.script.Plausible() && CallOk(sh, s'.threads[u].call, s'.threads[u].local, u)
    {
      if u != t {
        var th := s.threads[u];
        assert CallOk(s.shared, th.call, th.local, u);
        ClaimFrame(s.shared.records, sh.records, k, th.call, th.local);
        PlacesFrame(s.shared, sh, th.local, u);
      }
    }
  }

  // ---------- owners, handler calls and events through a step ----------

  lemma OwnersKeep(s: State, t: Tid, sh: Shared, l: Local)
    requires OwnersOk(s) && t in s.threads && sh.records.Keys == s.shared.records.Keys
    requires Holds(l) <==> Holds(s.threads[t].local)
    requires Holds(l) ==> l.claim == s.threads[t].local.claim
    ensures OwnersOk(Put(s, t, sh, l))
  {
    var s' := Put(s, t, sh, l);
    forall k | k in sh.records ensures exists u :: u in s'.threads && HoldsKey(s'.threads[u], k) {
      var u :| u in s.threads && HoldsKey(s.threads[u], k);
      assert HoldsKey(s'.threads[u], k);
    }
    forall u, v, k | u in s'.threads && v in s'.threads && HoldsKey(s'.threads[u], k) && HoldsKey(s'.threads[v], k)
      ensures u == v
    {
      assert HoldsKey(s.threads[u], k) && HoldsKey(s.threads[v], k);
    }
  }

  lemma OwnerAdded(s: State, t: Tid, sh: Shared, l: Local, k: string)
    requires OwnersOk(s) && t in s.threads && k !in s.shared.records && sh.records.Keys == s.shared.records.Keys + {k}
    requires s.threads[t].local.claim.None? && Holds(l) && l.claim.value.record.key == k
    requires forall u | u in s.threads && Holds(s.threads[u].local) ::
      s.threads[u].local.claim.value.record.key in s.shared.records
    ensures OwnersOk(Put(s, t, sh, l))
  {
    var s' := Put(s, t, sh, l);
    forall j | j in sh.records ensures exists u :: u in s'.threads && HoldsKey(s'.threads[u], j) {
      if j == k {
        assert HoldsKey(s'.threads[t], k);
      } else {
        var u :| u in s.threads && HoldsKey(s.threads[u], j);
        assert HoldsKey(s'.threads[u], j);
      }
    }
    OwnersDiffer(s, t, sh, l, k);
  }

  lemma OwnersDiffer(s: State, t: Tid, sh: Shared, l: Local, k: string)
    requires OwnersOk(s) && t in s.threads && k !in s.shared.records && Holds(l) && l.claim.value.record.key == k
    requires forall u | u in s.threads && Holds(s.threads[u].local) ::
      s.threads[u].local.claim.value.record.key in s.shared.records
    ensures var threads := Put(s, t, sh, l).threads;
      forall u, v, j | u in threads && v in threads && HoldsKey(threads[u], j) && HoldsKey(threads[v], j) :: u == v
  {
    var threads := Put(s, t, sh, l).threads;
    forall u, v, j | u in threads && v in threads && HoldsKey(threads[u], j) && HoldsKey(threads[v], j)
      ensures u == v
    {
      if u != t { assert HoldsKey(s.threads[u], j) && j != k; }
      if v != t { assert HoldsKey(s.threads[v], j) && j != k; }
    }
  }

  lemma CallsKeep(s: State, t: Tid, sh: Shared, l: Local)
    requires CallsOk(s) && t in s.threads && sh.calls == s.shared.calls && |s.shared.ledger| <= |sh.ledger|
    requires l.ran == s.threads[t].local.ran
    requires s.threads[t].local.startedAt.Some? ==> l.startedAt == s.threads[t].local.startedAt
    ensures CallsOk(Put(s, t, sh, l))
  {
    var s' := Put(s, t, sh, l);
    forall i | 0 <= i < |sh.calls| ensures CallEntryOk(s', sh.calls[i]) { assert CallEntryOk(s, s.shared.calls[i]); }
    forall u | u in s'.threads && s'.threads[u].local.ran
      ensures exists i :: 0 <= i < |sh.calls| && sh.calls[i].caller == u
    {
      assert s.threads[u].local.ran;
    }
  }

  lemma CallAdded(s: State, t: Tid, sh: Shared, l: Local)
    requires CallsOk(s) && t in s.threads && !s.threads[t].local.ran && l.ran && sh.ledger == s.shared.ledger
    requires sh.calls == s.shared.calls + [HandlerCall(t, s.threads[t].call.action.idempotencyKey, |sh.ledger|)]
    requires l.startedAt == s.threads[t].local.startedAt && l.startedAt.Some? && l.startedAt.value < |sh.ledger|
    ensures CallsOk(Put(s, t, sh, l))
  {
    var s' := Put(s, t, sh, l);
    var n := |s.shared.calls|;
    forall i | 0 <= i < |sh.calls| ensures CallEntryOk(s', sh.calls[i]) {
      if i < n { assert CallEntryOk(s, s.shared.calls[i]); }
    }
    forall i, j | 0 <= i < j < |sh.calls| ensures sh.calls[i].caller != sh.calls[j].caller {
      assert CallEntryOk(s, s.shared.calls[i]);
    }
    forall u | u in s'.threads && s'.threads[u].local.ran
      ensures exists i :: 0 <= i < |sh.calls| && sh.calls[i].caller == u
    {
      if u == t {
        assert sh.calls[n].caller == t;
      } else {
        var i :| 0 <= i < n && s.shared.calls[i].caller == u;
        assert sh.calls[i].caller == u;
      }
    }
  }

  lemma EventsKeep(s: State, t: Tid, sh: Shared, l: Local)
    requires EventsOk(s) && t in s.threads && sh.ledger == s.shared.ledger && sh.authors == s.shared.authors
    requires l.trail == s.threads[t].local.trail
    ensures EventsOk(Put(s, t, sh, l))
  {
  }

  lemma SurvivingOneMore(c: Call, word: seq<EventKind>, kind: EventKind)
    ensures Surviving(c, word + [kind]) == Surviving(c, word) + (if AppendOk(c, kind) then [kind] else [])
  {
    assert (word + [kind])[..|word|] == word;
  }

  lemma EventLost(s: State, t: Tid, sh: Shared, l: Local, kind: EventKind)
    requires EventsOk(s) && t in s.threads && sh.ledger == s.shared.ledger && sh.authors == s.shared.authors
    requires l.trail == s.threads[t].local.trail + [kind] && !AppendOk(s.threads[t].call, kind)
    ensures EventsOk(Put(s, t, sh, l))
  {
    SurvivingOneMore(s.threads[t].call, s.threads[t].local.trail, kind);
  }

  lemma EventAdded(s: State, t: Tid, sh: Shared, l: Local, e: Entry)
    requires EventsOk(s) && t in s.threads
    requires sh.ledger == Appended(s.shared.ledger, e) && sh.authors == s.shared.authors + [t]
    requires l.trail == s.threads[t].local.trail + [e.kind] && AppendOk(s.threads[t].call, e.kind)
    ensures EventsOk(Put(s, t, sh, l))
  {
    var s' := Put(s, t, sh, l);
    var n := |s.shared.ledger|;
    assert sh.ledger[..n] == s.shared.ledger && sh.authors[..n] == s.shared.authors;
    SurvivingOneMore(s.threads[t].call, s.threads[t].local.trail, e.kind);
    forall u | u in s'.threads
      ensures Projection(sh.ledger, sh.authors, u) == Surviving(s'.threads[u].call, s'.threads[u].local.trail)
    {
      assert Projection(sh.ledger, sh.authors, u)
          == Projection(s.shared.ledger, s.shared.authors, u) + (if u == t then [e.kind] else []);
    }
  }

  // ---------- performing each kind of act ----------

  ghost predicate Ready(s: State, t: Tid, act: Act) {
    Inv(s) && t in s.threads && ActOk(s.shared.registry, s.threads[t].call, s.threads[t].local, act)
  }

  lemma ThinkKeeps(s: State, t: Tid, n: Local)
    requires Ready(s, t, Think(n))
    ensures Inv(Put(s, t, s.shared, n))
  {
    var l := s.threads[t].local;
    assert CallOk(s.shared, s.threads[t].call, l, t);
    OthersKeep(s, t, s.shared, n, None);
    OwnersKeep(s, t, s.shared, n);
    CallsKeep(s, t, s.shared, n);
    EventsKeep(s, t, s.shared, n);
  }

  lemma AppendKeeps(s: State, t: Tid, kind: EventKind, details: Details, stored: Local, lost: Local)
    requires Ready(s, t, Append(kind, details, stored, lost))
    ensures var act := Append(kind, details, stored, lost);
      var (sh, n) := Perform(s.shared, s.threads[t].call, s.threads[t].local, t, act);
      Inv(Put(s, t, sh, n))
  {
    if AppendOk(s.threads[t].call, kind) {
      StoredKeeps(s, t, kind, details, stored, lost);
    } else {
      LostKeeps(s, t, kind, details, stored, lost);
    }
  }

  lemma LostKeeps(s: State, t: Tid, kind: EventKind, details: Details, stored: Local, lost: Local)
    requires Ready(s, t, Append(kind, details, stored, lost)) && !AppendOk(s.threads[t].call, kind)
    ensures Inv(Put(s, t, s.shared, WithoutEvent(lost, kind)))
  {
    var n := WithoutEvent(lost, kind);
    assert CallOk(s.shared, s.threads[t].call, s.threads[t].local, t);
    OthersKeep(s, t, s.shared, n, None);
    OwnersKeep(s, t, s.shared, n);
    CallsKeep(s, t, s.shared, n);
    EventLost(s, t, s.shared, n, kind);
  }

  lemma PlaceIsIrrelevant(registry: map<string, ToolContract>, c: Call, l: Local, kind: EventKind, at: nat)
    requires LocalOk(registry, c, WithEvent(l, kind, 0))
    ensures LocalOk(registry, c, WithEvent(l, kind, at))
  {
    assert LocalFacts(registry, c, WithEvent(l, kind, 0));
    PlaceFree(registry, c, l, kind, at);
  }

  lemma PlaceFree(registry: map<string, ToolContract>, c: Call, l: Local, kind: EventKind, at: nat)
    requires LocalFacts(registry, c, WithEvent(l, kind, 0))
    ensures LocalFacts(registry, c, WithEvent(l, kind, at))
  {
  }

  lemma StoredPlaces(sh: Shared, sh': Shared, c: Call, l: Local, t: Tid, n: Local, kind: EventKind, e: Entry)
    requires |sh.ledger| == |sh.authors| && PlacesOk(sh, l, t) && Continues(c, l, n) && e.kind == kind
    requires kind.ActionReceived? ==> l.startedAt.None?
    requires kind.ExecutionStarted? ==> l.receivedAt.Some?
    requires sh'.ledger == Appended(sh.ledger, e) && sh'.authors == sh.authors + [t]
    ensures PlacesOk(sh', WithEvent(n, kind, |sh.ledger|), t)
  {
  }

  lemma StoredThreads(s: State, t: Tid, kind: EventKind, details: Details, stored: Local, lost: Local, e: Entry)
    requires Ready(s, t, Append(kind, details, stored, lost)) && AppendOk(s.threads[t].call, kind) && e.kind == kind
    ensures ThreadsOk(Put(s, t, s.shared.(ledger := Appended(s.shared.ledger, e), authors := s.shared.authors + [t]),
                          WithEvent(stored, kind, |s.shared.ledger|)))
  {
    var c, l := s.threads[t].call, s.threads[t].local;
    var sh := s.shared.(ledger := Appended(s.shared.ledger, e), authors := s.shared.authors + [t]);
    PlaceFacts(s, t);
    assert CallOk(s.shared, c, l, t);
    PlaceIsIrrelevant(s.shared.registry, c, stored, kind, |s.shared.ledger|);
    StoredPlaces(s.shared, sh, c, l, t, stored, kind, e);
    OthersKeep(s, t, sh, WithEvent(stored, kind, |s.shared.ledger|), None);
  }

  lemma StoredKeeps(s: State, t: Tid, kind: EventKind, details: Details, stored: Local, lost: Local)
    requires Ready(s, t, Append(kind, details, stored, lost)) && AppendOk(s.threads[t].call, kind)
    ensures var act := Append(kind, details, stored, lost);
      var (sh, n) := Perform(s.shared, s.threads[t].call, s.threads[t].local, t, act);
      Inv(Put(s, t, sh, n))
  {
    var e := EntryOf(s.threads[t].call, kind, details);
    var sh := s.shared.(ledger := Appended(s.shared.ledger, e), authors := s.shared.authors + [t]);
    var n := WithEvent(stored, kind, |s.shared.ledger|);
    PlaceFacts(s, t);
    StoredThreads(s, t, kind, details, stored, lost, e);
    OwnersKeep(s, t, sh, n);
    CallsKeep(s, t, sh, n);
    EventAdded(s, t, sh, n, e);
  }

  lemma AcquiredLocal(registry: map<string, ToolContract>, c: Call, l: Local, claim: Claim)
    requires LocalOk(registry, c, l) && l.pc.Claiming? && claim.acquired
    ensures LocalOk(registry, c, l.(claim := Some(claim), pc := Pre(0)))
  {
    assert LocalFacts(registry, c, l);
  }

  lemma ObservedLocal(registry: map<string, ToolContract>, c: Call, l: Local, claim: Claim)
    requires LocalOk(registry, c, l) && l.pc.Claiming? && !claim.acquired
    requires claim.record.status.Completed? ==> Decodable(claim.record.result)
    ensures LocalOk(registry, c, l.(claim := Some(claim), pc := Replaying))
  {
    assert LocalFacts(registry, c, l);
  }

  /** A call holds a claim only on a key that has a record. */
  lemma HoldersHaveRecords(s: State)
    requires ThreadsOk(s)
    ensures forall u | u in s.threads && Holds(s.threads[u].local) ::
      s.threads[u].local.claim.value.record.key in s.shared.records
  {
    forall u | u in s.threads && Holds(s.threads[u].local)
      ensures s.threads[u].local.claim.value.record.key in s.shared.records
    {
      ClaimFacts(s, u);
    }
  }

  lemma AcquiredCall(sh: Shared, c: Call, l: Local, t: Tid, k: string, r: Record)
    requires CallOk(sh, c, l, t) && l.pc.Claiming? && c.action.idempotencyKey == Some(k) && k !in sh.records
    requires r.key == k && r.status.InProgress? && r.claimedAt == c.script.claimedAt && r.ownerToken == c.script.token
    ensures CallOk(sh.(records := sh.records[k := r]), c, l.(claim := Some(Claim(r, true)), pc := Pre(0)), t)
  {
    AcquiredLocal(sh.registry, c, l, Claim(r, true));
  }

  lemma GrantedThreads(s: State, t: Tid, k: string, r: Record)
    requires ThreadsOk(s) && t in s.threads && k !in s.shared.records
    requires s.threads[t].local.pc.Claiming? && s.threads[t].call.action.idempotencyKey == Some(k)
    requires r.key == k && r.status.InProgress? && r.claimedAt == s.threads[t].call.script.claimedAt
    requires r.ownerToken == s.threads[t].call.script.token
    ensures ThreadsOk(Put(s, t, s.shared.(records := s.shared.records[k := r]),
                          s.threads[t].local.(claim := Some(Claim(r, true)), pc := Pre(0))))
  {
    var c, l := s.threads[t].call, s.threads[t].local;
    var sh := s.shared.(records := s.shared.records[k := r]);
    assert CallOk(s.shared, c, l, t);
    AcquiredCall(s.shared, c, l, t, k, r);
    OthersKeep(s, t, sh, l.(claim := Some(Claim(r, true)), pc := Pre(0)), Some(k));
  }

  lemma GrantedKeeps(s: State, t: Tid, k: string, r: Record)
    requires Inv(s) && t in s.threads && k !in s.shared.records
    requires s.threads[t].local.pc.Claiming? && s.threads[t].call.action.idempotencyKey == Some(k)
    requires r.key == k && r.status.InProgress? && r.claimedAt == s.threads[t].call.script.claimedAt
    requires r.ownerToken == s.threads[t].call.script.token
    ensures Inv(Put(s, t, s.shared.(records := s.shared.records[k := r]),
                    s.threads[t].local.(claim := Some(Claim(r, true)), pc := Pre(0))))
  {
    var sh := s.shared.(records := s.shared.records[k := r]);
    var n := s.threads[t].local.(claim := Some(Claim(r, true)), pc := Pre(0));
    ClaimFacts(s, t);
    GrantedThreads(s, t, k, r);
    GrantedOwners(s, t, sh, n, k);
    CallsKeep(s, t, sh, n);
    EventsKeep(s, t, sh, n);
    RecordAdded(s.shared.records, k, r);
  }

  lemma GrantedOwners(s: State, t: Tid, sh: Shared, l: Local, k: string)
    requires ThreadsOk(s) && OwnersOk(s) && t in s.threads && k !in s.shared.records
    requires sh.records.Keys == s.shared.records.Keys + {k}
    requires s.threads[t].local.claim.None? && Holds(l) && l.claim.value.record.key == k
    ensures OwnersOk(Put(s, t, sh, l))
  {
    HoldersHaveRecords(s);
    OwnerAdded(s, t, sh, l, k);
  }

  lemma AcquiredKeeps(s: State, t: Tid, k: string)
    requires Ready(s, t, ClaimKey(k)) && k !in s.shared.records
    ensures var (sh, n) := Perform(s.shared, s.threads[t].call, s.threads[t].local, t, ClaimKey(k));
      Inv(Put(s, t, sh, n))
  {
    var c := s.threads[t].call;
    GrantedKeeps(s, t, k, Record(k, c.script.token, InProgress, c.script.claimedAt, None, None, Null));
  }

  lemma RecordAdded(records: Records, k: string, r: Record)
    requires RecordsOk(records) && (r.status.Completed? ==> Decodable(r.result))
    ensures RecordsOk(records[k := r])
  {
  }

  lemma ObservedThreads(s: State, t: Tid, k: string)
    requires Ready(s, t, ClaimKey(k)) && k in s.shared.records
    ensures ThreadsOk(Put(s, t, s.shared, s.threads[t].local.(claim := Some(Claim(s.shared.records[k], false)),
                                                              pc := Replaying)))
  {
    var c, l := s.threads[t].call, s.threads[t].local;
    var claim := Claim(s.shared.records[k], false);
    ClaimFacts(s, t);
    assert CallOk(s.shared, c, l, t);
    ObservedLocal(s.shared.registry, c, l, claim);
    OthersKeep(s, t, s.shared, l.(claim := Some(claim), pc := Replaying), None);
  }

  lemma ObservedPerformed(sh: Shared, c: Call, l: Local, t: Tid, k: string)
    requires k in sh.records
    ensures Perform(sh, c, l, t, ClaimKey(k))
         == (sh, l.(claim := Some(Claim(sh.records[k], false)), pc := Replaying))
  {
  }

  /** A step that changes nothing shared, nor what the call holds and has done. */
  lemma LocalStepKeeps(s: State, t: Tid, n: Local)
    requires Inv(s) && t in s.threads && ThreadsOk(Put(s, t, s.shared, n))
    requires var l := s.threads[t].local;
      && (Holds(n) <==> Holds(l)) && (Holds(n) ==> n.claim == l.claim)
      && n.ran == l.ran && n.startedAt == l.startedAt && n.trail == l.trail
    ensures Inv(Put(s, t, s.shared, n))
  {
    OwnersKeep(s, t, s.shared, n);
    CallsKeep(s, t, s.shared, n);
    EventsKeep(s, t, s.shared, n);
  }

  lemma ObservedKeeps(s: State, t: Tid, k: string)
    requires Ready(s, t, ClaimKey(k)) && k in s.shared.records
    ensures var (sh, n) := Perform(s.shared, s.threads[t].call, s.threads[t].local, t, ClaimKey(k));
      Inv(Put(s, t, sh, n))
  {
    ClaimFacts(s, t);
    ObservedThreads(s, t, k);
    LocalStepKeeps(s, t, s.threads[t].local.(claim := Some(Claim(s.shared.records[k], false)), pc := Replaying));
    ObservedPerformed(s.shared, s.threads[t].call, s.threads[t].local, t, k);
  }

  /** A call's own invariant survives its handler call, which only adds to the list of calls. */
  lemma CalledCall(sh: Shared, c: Call, l: Local, t: Tid, next: Local, calls: seq<HandlerCall>)
    requires CallOk(sh, c, l, t) && ActOk(sh.registry, c, l, CallTool(next))
    ensures CallOk(sh.(calls := calls), c, next.(ran := true), t)
  {
  }

  lemma CalledThreads(s: State, t: Tid, next: Local, calls: seq<HandlerCall>)
    requires Ready(s, t, CallTool(next))
    ensures ThreadsOk(Put(s, t, s.shared.(calls := calls), next.(ran := true)))
  {
    var c, l := s.threads[t].call, s.threads[t].local;
    assert CallOk(s.shared, c, l, t);
    CalledCall(s.shared, c, l, t, next, calls);
    OthersKeep(s, t, s.shared.(calls := calls), next.(ran := true), None);
  }

  lemma CalledKeeps(s: State, t: Tid, next: Local, calls: seq<HandlerCall>)
    requires Ready(s, t, CallTool(next))
    requires calls
          == s.shared.calls + [HandlerCall(t, s.threads[t].call.action.idempotencyKey, |s.shared.ledger|)]
    ensures Inv(Put(s, t, s.shared.(calls := calls), next.(ran := true)))
  {
    var sh, n := s.shared.(calls := calls), next.(ran := true);
    CalledThreads(s, t, next, calls);
    PlaceFacts(s, t);
    OwnersKeep(s, t, sh, n);
    CallAdded(s, t, sh, n);
    EventsKeep(s, t, sh, n);
  }

  lemma CallToolKeeps(s: State, t: Tid, next: Local)
    requires Ready(s, t, CallTool(next))
    ensures var (sh, n) := Perform(s.shared, s.threads[t].call, s.threads[t].local, t, CallTool(next));
      Inv(Put(s, t, sh, n))
  {
    var c := s.threads[t].call;
    var calls := s.shared.calls + [HandlerCall(t, c.action.idempotencyKey, |s.shared.ledger|)];
    CallPerformed(s.shared, c, s.threads[t].local, t, next, calls);
    CalledKeeps(s, t, next, calls);
  }

  lemma CallPerformed(sh: Shared, c: Call, l: Local, t: Tid, next: Local, calls: seq<HandlerCall>)
    requires calls == sh.calls + [HandlerCall(t, c.action.idempotencyKey, |sh.ledger|)]
    ensures Perform(sh, c, l, t, CallTool(next)) == (sh.(calls := calls), next.(ran := true))
  {
  }

  // ---------- completing a claim ----------

  /** The result a claim is completed with can be stored, and replays. */
  lemma ResultStorable(c: Call, e: Ending)
    requires c.script.Plausible() && Keepable(e)
    ensures ResultOf(c, e).Storable()
  {
    BuiltResultsAreValid(c, e);
  }

  lemma EndingStorable(s: State, t: Tid)
    requires ThreadsOk(s) && t in s.threads
    ensures var c, l := s.threads[t].call, s.threads[t].local;
      l.ending.Some? && (l.pc.Complete? || (l.pc.Done? && Holds(l))) ==> ResultOf(c, l.ending.value).Storable()
  {
    var c, l := s.threads[t].call, s.threads[t].local;
    OwnFacts(s, t);
    if l.ending.Some? && (l.pc.Complete? || (l.pc.Done? && Holds(l))) { ResultStorable(c, l.ending.value); }
  }

  lemma StoredReplays(c: Call, e: Ending)
    requires ResultOf(c, e).Storable()
    ensures StoresResult(Encode(ResultOf(c, e)), c, e) && Decodable(Encode(ResultOf(c, e)))
  {
    ReplayEncode(ResultOf(c, e));
  }

  lemma CompletionSucceeds(records: Records, c: Call, l: Local, key: string, token: string, reference: string, v: Value)
    requires RecordOfHolder(records, c, l) && !l.pc.Done? && c.script.Plausible()
    requires key == l.claim.value.record.key && token == l.claim.value.record.ownerToken
    ensures Completion(records, key, token, reference, v, c.script.recordedAt)
         == Ok(Record(key, token, Completed, c.script.claimedAt, Some(c.script.recordedAt), Some(reference), v))
  {
  }

  lemma CompletedLocal(registry: map<string, ToolContract>, c: Call, l: Local)
    requires LocalOk(registry, c, l) && l.pc.Complete?
    requires Holds(l)
    ensures LocalOk(registry, c, l.(pc := Done))
  {
    assert LocalFacts(registry, c, l);
  }

  lemma CompletedCall(sh: Shared, c: Call, l: Local, t: Tid, r: Record)
    requires CallOk(sh, c, l, t) && l.pc.Complete? && Holds(l) && l.ending.Some?
    requires r.key == l.claim.value.record.key && r.ownerToken == l.claim.value.record.ownerToken
    requires r.status.Completed? && r.claimedAt == c.script.claimedAt && StoresResult(r.result, c, l.ending.value)
    requires r.completedAt == Some(c.script.recordedAt)
    requires r.resultReference == Some(ResultOf(c, l.ending.value).executionId)
    ensures CallOk(sh.(records := sh.records[r.key := r]), c, l.(pc := Done), t)
  {
    CompletedLocal(sh.registry, c, l);
  }

  /** The record a call's completion writes. */
  function CompletedRecord(key: string, token: string, c: Call, r: ExecutionResult, v: Value): Record {
    Record(key, token, Completed, c.script.claimedAt, Some(c.script.recordedAt), Some(r.executionId), v)
  }

  lemma RecordedKeeps(s: State, t: Tid, r: Record)
    requires Inv(s) && t in s.threads && s.threads[t].local.pc.Complete? && Holds(s.threads[t].local)
    requires s.threads[t].local.ending.Some?
    requires r.key == s.threads[t].local.claim.value.record.key
    requires r.ownerToken == s.threads[t].local.claim.value.record.ownerToken
    requires r.status.Completed? && r.claimedAt == s.threads[t].call.script.claimedAt
    requires r.completedAt == Some(s.threads[t].call.script.recordedAt)
    requires r.resultReference == Some(ResultOf(s.threads[t].call, s.threads[t].local.ending.value).executionId)
    requires StoresResult(r.result, s.threads[t].call, s.threads[t].local.ending.value) && Decodable(r.result)
    ensures Inv(Put(s, t, s.shared.(records := s.shared.records[r.key := r]), s.threads[t].local.(pc := Done)))
  {
    var c, l := s.threads[t].call, s.threads[t].local;
    var sh := s.shared.(records := s.shared.records[r.key := r]);
    var n := l.(pc := Done);
    assert CallOk(s.shared, c, l, t);
    CompletedCall(s.shared, c, l, t, r);
    OthersComplete(s, t, sh, n, r);
    OwnersKeep(s, t, sh, n);
    CallsKeep(s, t, sh, n);
    EventsKeep(s, t, sh, n);
    RecordAdded(s.shared.records, r.key, r);
  }

  lemma OthersComplete(s: State, t: Tid, sh: Shared, n: Local, r: Record)
    requires ThreadsOk(s) && OwnersOk(s)
    requires t in s.threads && HoldsKey(s.threads[t], r.key) && !s.threads[t].local.pc.Done?
    requires sh == s.shared.(records := s.shared.records[r.key := r]) && CallOk(sh, s.threads[t].call, n, t)
    ensures ThreadsOk(Put(s, t, sh, n))
  {
    assert CallOk(s.shared, s.threads[t].call, s.threads[t].local, t);
    OthersKeep(s, t, sh, n, Some(r.key));
  }

  lemma CompleteClaimKeeps(s: State, t: Tid, claim: Claim, r: ExecutionResult)
    requires Ready(s, t, CompleteClaim(claim, r))
    ensures var (sh, n) := Perform(s.shared, s.threads[t].call, s.threads[t].local, t, CompleteClaim(claim, r));
      Inv(Put(s, t, sh, n))
  {
    var c, l := s.threads[t].call, s.threads[t].local;
    EndingStorable(s, t);
    ClaimFacts(s, t);
    StoredReplays(c, l.ending.value);
    CompletionPerformed(s.shared, c, l, t, claim, r);
    RecordedKeeps(s, t, CompletedRecord(claim.record.key, claim.record.ownerToken, c, r, Encode(r)));
  }

  lemma CompletionPerformed(sh: Shared, c: Call, l: Local, t: Tid, claim: Claim, r: ExecutionResult)
    requires RecordOfHolder(sh.records, c, l) && !l.pc.Done? && c.script.Plausible() && l.claim == Some(claim)
    ensures var done := CompletedRecord(claim.record.key, claim.record.ownerToken, c, r, Encode(r));
      Perform(sh, c, l, t, CompleteClaim(claim, r))
      == (sh.(records := sh.records[claim.record.key := done]), l.(pc := Done))
  {
    CompletionSucceeds(sh.records, c, l, claim.record.key, claim.record.ownerToken, r.executionId, Encode(r));
  }

  // ---------- every step and every run ----------

  lemma TurnReady(s: State, t: Tid)
    requires Inv(s) && t in s.threads
    ensures Ready(s, t, Next(s.shared.registry, s.threads[t].call, s.threads[t].local))
  {
    assert CallOk(s.shared, s.threads[t].call, s.threads[t].local, t);
    NextKeeps(s.shared.registry, s.threads[t].call, s.threads[t].local);
  }

  lemma TurnKeeps(s: State, t: Tid)
    requires Inv(s) && t in s.threads
    ensures Inv(Do(s, Turn(t)))
  {
    TurnReady(s, t);
    ActKeeps(s, t, Next(s.shared.registry, s.threads[t].call, s.threads[t].local));
  }

  lemma ActKeeps(s: State, t: Tid, act: Act)
    requires Ready(s, t, act)
    ensures var (sh, n) := Perform(s.shared, s.threads[t].call, s.threads[t].local, t, act); Inv(Put(s, t, sh, n))
  {
    match act
    case Think(n) => ThinkKeeps(s, t, n);
    case Append(kind, details, stored, lost) => AppendKeeps(s, t, kind, details, stored, lost);
    case ClaimKey(k) => if k in s.shared.records { ObservedKeeps(s, t, k); } else { AcquiredKeeps(s, t, k); }
    case CallTool(n) => CallToolKeeps(s, t, n);
    case CompleteClaim(claim, r) => CompleteClaimKeeps(s, t, claim, r);
  }

  lemma RegisterKeeps(s: State, contract: ToolContract)
    requires Inv(s)
    ensures Inv(Do(s, Register(contract)))
  {
    var s' := Do(s, Register(contract));
    RegisterKeepsThreads(s, s');
    RegisterKeepsRest(s, s');
  }

  lemma RegisterKeepsThreads(s: State, s': State)
    requires ThreadsOk(s) && s'.threads == s.threads && s'.shared == s.shared.(registry := s'.shared.registry)
    requires forall n | n in s.shared.registry ::
      n in s'.shared.registry && s'.shared.registry[n] == s.shared.registry[n]
    ensures ThreadsOk(s')
  {
    forall t | t in s'.threads
      ensures s'.threads[t].call.script.Plausible() && CallOk(s'.shared, s'.threads[t].call, s'.threads[t].local, t)
    {
      assert CallOk(s.shared, s.threads[t].call, s.threads[t].local, t);
      LocalFrame(s.shared.registry, s'.shared.registry, s.threads[t].call, s.threads[t].local);
    }
  }

  lemma RegisterKeepsRest(s: State, s': State)
    requires Inv(s) && s'.threads == s.threads && s'.shared == s.shared.(registry := s'.shared.registry)
    ensures RecordsOk(s'.shared.records) && OwnersOk(s') && CallsOk(s') && EventsOk(s')
  {
    forall i | 0 <= i < |s'.shared.calls| ensures CallEntryOk(s', s'.shared.calls[i]) {
      assert CallEntryOk(s, s.shared.calls[i]);
    }
  }

  lemma FreshIsOk(sh: Shared, c: Call, t: Tid)
    ensures CallOk(sh, c, FRESH, t)
  {
  }

  /** Another call is about to be made. */
  function Joined(s: State, t: Tid, c: Call): State { State(s.shared, s.threads[t := Thread(c, FRESH)]) }

  lemma {:induction false} NoEvents(ledger: seq<LedgerEvent>, authors: seq<Tid>, t: Tid)
    requires |ledger| == |authors| && t !in authors
    ensures Projection(ledger, authors, t) == []
  {
    if ledger != [] { NoEvents(ledger[..|ledger| - 1], authors[..|ledger| - 1], t); }
  }

  lemma JoinKeepsOwners(s: State, t: Tid, c: Call)
    requires OwnersOk(s) && t !in s.threads
    ensures OwnersOk(Joined(s, t, c))
  {
    var s' := Joined(s, t, c);
    forall k | k in s'.shared.records ensures exists u :: u in s'.threads && HoldsKey(s'.threads[u], k) {
      var u :| u in s.threads && HoldsKey(s.threads[u], k);
      assert HoldsKey(s'.threads[u], k);
    }
    forall u, v, k | u in s'.threads && v in s'.threads && HoldsKey(s'.threads[u], k) && HoldsKey(s'.threads[v], k)
      ensures u == v
    {
      assert HoldsKey(s.threads[u], k) && HoldsKey(s.threads[v], k);
    }
  }

  lemma JoinKeepsCalls(s: State, t: Tid, c: Call)
    requires CallsOk(s) && t !in s.threads
    ensures CallsOk(Joined(s, t, c))
  {
    var s' := Joined(s, t, c);
    forall i | 0 <= i < |s'.shared.calls| ensures CallEntryOk(s', s'.shared.calls[i]) {
      assert CallEntryOk(s, s.shared.calls[i]);
    }
  }

  lemma JoinKeepsThreads(s: State, t: Tid, c: Call)
    requires ThreadsOk(s) && t !in s.threads && c.script.Plausible()
    ensures ThreadsOk(Joined(s, t, c))
  {
    var s' := Joined(s, t, c);
    forall u | u in s'.threads
      ensures s'.threads[u].call.script.Plausible() && CallOk(s'.shared, s'.threads[u].call, s'.threads[u].local, u)
    {
      if u == t {
        FreshIsOk(s.shared, c, t);
      } else {
        assert CallOk(s.shared, s.threads[u].call, s.threads[u].local, u);
      }
    }
  }

  /** A call can begin at any point of any run. */
  lemma JoinKeeps(s: State, t: Tid, c: Call)
    requires Inv(s) && t !in s.threads && c.script.Plausible()
    ensures Inv(Joined(s, t, c))
  {
    JoinKeepsThreads(s, t, c);
    JoinKeepsOwners(s, t, c);
    JoinKeepsCalls(s, t, c);
    NoEvents(s.shared.ledger, s.shared.authors, t);
  }

  lemma InitInv(s: State)
    requires Init(s)
    ensures Inv(s)
  {
    forall t | t in s.threads ensures CallOk(s.shared, s.threads[t].call, s.threads[t].local, t) {
      FreshIsOk(s.shared, s.threads[t].call, t);
    }
  }

  lemma DoKeeps(s: State, m: Move)
    requires Inv(s)
    ensures Inv(Do(s, m))
  {
    match m
    case Turn(t) => if t in s.threads { TurnKeeps(s, t); }
    case Register(k) => RegisterKeeps(s, k);
  }

  /** The invariant holds after every interleaving. */
  lemma {:induction false} RunInv(s: State, schedule: seq<Move>)
    requires Inv(s)
    ensures Inv(Run(s, schedule))
    decreases |schedule|
  {
    if schedule != [] {
      DoKeeps(s, schedule[0]);
      RunInv(Do(s, schedule[0]), schedule[1..]);
    }
  }
}
