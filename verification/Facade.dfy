/** The facade: a protected tool call becomes an intent with a key and runs through the runtime. */
module Facade {
  import opened Json
  import opened CanonicalText
  import opened Contracts
  import opened Policies
  import opened AuditLedger
  import opened Idempotency
  import opened IdempotencyKeys
  import opened HostValues
  import opened ExecutionResults
  import opened Pipeline
  import opened ConcurrentRuntime
  import opened RuntimeSafety
  import opened MemoTable
  import opened Runtime
  import opened SequentialCalls
  import ReturnedAnswers

  /** `_required_schema_fields`: the input schema's `required` list, if it is a list of names. */
  function RequiredFields(contract: ToolContract): seq<string> {
    match Get(contract.inputSchema, "required")
    case Some(Arr(items)) =>
      if forall i | 0 <= i < |items| :: items[i].Str?
      then seq(|items|, i requires 0 <= i < |items| && items[i].Str? => items[i].s)
      else []
    case _ => []
  }

  function KeyFields(contract: ToolContract, fields: Option<seq<string>>): seq<string> {
    if fields.Some? then fields.value else RequiredFields(contract)
  }

  /** What the wrapper raises before the runtime is reached. */
  datatype FacadeError = NotCompatible(name: string) | KeyRefused(error: KeyError) | IntentRefused

  function IntentWith(contract: ToolContract, arguments: seq<Member>, intentId: string, key: Option<string>)
    : Result<ActionIntent, FacadeError>
  {
    if IsJson(Obj(arguments)) then
      Ok(ActionIntent(intentId, contract.contractId, contract.name, contract.version, arguments, key))
    else Err(IntentRefused)
  }

  /** The intent the wrapper builds from converted arguments, or the error it raises: creating
      the key may fail, and the intent's own field refuses arguments that are not JSON. */
  function IntentFor(contract: ToolContract, fields: Option<seq<string>>, arguments: seq<Member>, intentId: string,
                     digest: string -> string): Result<ActionIntent, FacadeError>
  {
    if !contract.idempotencyKeyRequired then IntentWith(contract, arguments, intentId, None)
    else
      match Key(contract.name, arguments, KeyFields(contract, fields), digest)
      case Ok(key) => IntentWith(contract, arguments, intentId, Some(key))
      case Err(e) => Err(KeyRefused(e))
  }

  /** The intent of a call with these bound arguments. */
  function IntentOf(contract: ToolContract, fields: Option<seq<string>>, bound: seq<Binding>, intentId: string,
                    digest: string -> string): Result<ActionIntent, FacadeError>
  {
    match ArgumentsOf(bound, |bound|)
    case Err(name) => Err(NotCompatible(name))
    case Ok(arguments) => IntentFor(contract, fields, arguments, intentId, digest)
  }

  /** The calls made so far, each under a number of its own. */
  ghost function SystemOf(shared: Shared, past: map<Tid, Thread>): State { State(shared, past) }

  /** The system's invariant, and numbers from `next` on are still free. Folded, so that methods
      need not look into it. */
  ghost predicate Healthy(s: State, next: Tid) {
    forall x {:trigger Inv(x)} | x == s :: Inv(x) && forall t | t in x.threads :: t < next
  }

  lemma HealthyAfter(s: State, next: Tid, c: Call)
    requires Healthy(s, next) && c.script.Plausible()
    ensures Healthy(Called(s, next, c), next + 1)
  {
    assert Inv(s);
    OneMoreCall(s, next, c);
  }

  lemma HealthyRegisters(s: State, next: Tid, contract: ToolContract)
    requires Healthy(s, next)
    ensures Healthy(Do(s, Register(contract)), next)
  {
    assert Inv(s);
    RegisterKeeps(s, contract);
  }

  lemma HealthyStart(s: State)
    requires Init(s) && s.threads == map[]
    ensures Healthy(s, 0)
  {
    InitInv(s);
  }

  /** One more call has begun and run alone, and this is what it returned. Folded likewise. */
  ghost predicate Answered(s: State, s': State, t: Tid, c: Call, r: Option<ExecutionResult>) {
    forall x {:trigger Called(x, t, c)} | x == s :: s' == Called(x, t, c) && r == Returned(c, s'.threads[t].local)
  }

  /** What the call returned is what is expected of it, given the tool registered under its name
      and the record kept under its key when it began. */
  lemma AnsweredAsExpected(s: State, s': State, t: Tid, c: Call, r: Option<ExecutionResult>)
    requires Healthy(s, t) && c.script.Plausible() && Answered(s, s', t, c, r)
    ensures r == ReturnedAnswers.Expected(c, ReturnedAnswers.Lookup(s.shared.registry, c.action.toolName),
                                          ReturnedAnswers.RecordUnder(s.shared.records, c.action.idempotencyKey))
  {
    assert Inv(s) && s' == Called(s, t, c);
    JoinKeeps(s, t, c);
    ReturnedAnswers.AloneAsExpected(Joined(s, t, c), t);
  }

  class AgentActum {
    const registry: ToolRegistry
    const engine: PolicyEngine
    const backend: InMemoryIdempotencyBackend
    const ledger: InMemoryLedger
    ghost var authors: seq<Tid>
    ghost var calls: seq<HandlerCall>
    ghost var past: map<Tid, Thread>
    ghost var next: Tid

    constructor (e: PolicyEngine)
      ensures engine == e && fresh(registry) && fresh(backend) && fresh(ledger)
      ensures World() == SystemOf(Shared(map[], map[], [], [], []), map[]) && Valid()
    {
      engine := e;
      registry := new ToolRegistry();
      backend := new InMemoryIdempotencyBackend();
      ledger := new InMemoryLedger();
      authors, calls, past, next := [], [], map[], 0;
      new;
      HealthyStart(World());
    }

    /** The concurrent system that the facade's calls belong to. */
    ghost function World(): State
      reads this, registry, backend, ledger
    {
      SystemOf(Shared(registry.tools, backend.records, ledger.events, authors, calls), past)
    }

    ghost predicate Valid()
      reads this, registry, backend, ledger
    {
      Healthy(World(), next)
    }

    /** `protect` registers the tool; a second tool of the same name is refused. */
    method Protect(contract: ToolContract) returns (added: bool)
      modifies registry
      ensures added == (contract.name !in old(registry.tools))
      ensures registry.tools == if added then old(registry.tools)[contract.name := contract] else old(registry.tools)
      ensures World() == Do(old(World()), Register(contract))
      ensures old(Valid()) ==> Valid()
    {
      if Valid() { HealthyRegisters(World(), next, contract); }
      added := registry.Register(contract);
    }

    /** The wrapper around a protected function. It raises what building the intent raises;
        otherwise one more call has run, that of the very intent, from where the system stood. */
    method CallTool(contract: ToolContract, fields: Option<seq<string>>, bound: seq<Binding>, intentId: string,
                    script: Script, digest: string -> string)
      returns (r: Result<Option<ExecutionResult>, FacadeError>)
      requires script.policies == engine.policies
      modifies this, backend, ledger
      ensures match IntentOf(contract, fields, bound, intentId, digest)
              case Err(e) => r == Err(e) && World() == old(World()) && next == old(next)
              case Ok(action) =>
                var t := old(next);
                r.Ok? && next == t + 1 && Answered(old(World()), World(), t, Call(action, script), r.value)
      ensures old(Valid()) && script.Plausible() ==> Valid()
    {
      var arguments := BindArguments(bound);
      if arguments.Err? { return Err(NotCompatible(arguments.error)); }
      var key := None;
      if contract.idempotencyKeyRequired {
        var created := CreateKey(contract.name, arguments.value, KeyFields(contract, fields), digest);
        if created.Err? { return Err(KeyRefused(created.error)); }
        key := Some(created.value);
      }
      var action := IntentWith(contract, arguments.value, intentId, key);
      if action.Err? { return Err(action.error); }
      var result := RunIntent(Call(action.value, script));
      r := Ok(result);
    }

    /** Runs an intent through a runtime of its own, over the facade's services. */
    method RunIntent(c: Call) returns (result: Option<ExecutionResult>)
      requires c.script.policies == engine.policies
      modifies this, backend, ledger
      ensures var t := old(next);
        next == t + 1 && Answered(old(World()), World(), t, c, result)
      ensures old(Valid()) && c.script.Plausible() ==> Valid()
    {
      ghost var joined, t := Joined(World(), next, c), next;
      if Valid() && c.script.Plausible() { HealthyAfter(World(), t, c); }
      var runtime := new SingleActionRuntime(registry, engine, backend, ledger, authors, calls);
      result := runtime.Execute(c, t);
      authors, calls := runtime.authors, runtime.calls;
      OutcomeIsASchedule(joined, t, World().shared, result);
      past, next := AfterAlone(joined, t).threads, t + 1;
    }
  }

  // ---------- what an intent is made of ----------

  /** Fields the caller gave are the ones selected; otherwise the input schema's "required" list
      is, if it is a list of names, and nothing if it is not. */
  lemma FieldsSelected(contract: ToolContract, given: seq<string>)
    ensures KeyFields(contract, Some(given)) == given
    ensures var names := KeyFields(contract, None);
      || Get(contract.inputSchema, "required") == Some(FieldList(names))
      || (names == [] && forall other :: Get(contract.inputSchema, "required") != Some(FieldList(other)))
  {
    var names := KeyFields(contract, None);
    match Get(contract.inputSchema, "required")
    case Some(Arr(items)) =>
      if forall i | 0 <= i < |items| :: items[i].Str? {
        assert items == FieldList(names).items;
      } else {
        var i :| 0 <= i < |items| && !items[i].Str?;
        forall other ensures FieldList(other) != Arr(items) {
          assert i < |other| ==> FieldList(other).items[i].Str?;
        }
      }
    case _ =>
  }

  /** An intent that was built matches its contract and carries the converted arguments and the
      caller's id; it has a key exactly if the contract requires one, and then the key names the
      tool and holds the digest of the canonical text of the selected fields. */
  lemma IntentIs(contract: ToolContract, fields: Option<seq<string>>, bound: seq<Binding>, id: string,
                 digest: string -> string)
    requires IntentOf(contract, fields, bound, id, digest).Ok?
    ensures var a, names := IntentOf(contract, fields, bound, id, digest).value, KeyFields(contract, fields);
      && a.contractId == contract.contractId && a.toolName == contract.name && a.contractVersion == contract.version
      && a.intentId == id && ArgumentsOf(bound, |bound|) == Ok(a.arguments)
      && (a.idempotencyKey.Some? <==> contract.idempotencyKeyRequired)
      && (contract.idempotencyKeyRequired ==>
            FirstMissing(a.arguments, names).None?
            && var text := Dumps(KeyMaterial(contract.name, a.arguments, names));
               text.Ok?
               && a.idempotencyKey.value == "agentactum:v1:" + contract.name + ":" + digest(text.value))
  {
    var args := ArgumentsOf(bound, |bound|).value;
    if contract.idempotencyKeyRequired { KeySpelled(contract.name, args, KeyFields(contract, fields), digest); }
  }

  /** The first of these that goes wrong is what the wrapper raises: an argument that does not
      convert, the required key, the intent's own arguments field. */
  lemma IntentErrors(contract: ToolContract, fields: Option<seq<string>>, bound: seq<Binding>, id: string,
                     digest: string -> string)
    requires IntentOf(contract, fields, bound, id, digest).Err?
    ensures var e := IntentOf(contract, fields, bound, id, digest).error;
      match ArgumentsOf(bound, |bound|)
      case Err(name) => e == NotCompatible(name)
      case Ok(args) =>
        var key := Key(contract.name, args, KeyFields(contract, fields), digest);
        if contract.idempotencyKeyRequired && key.Err? then e == KeyRefused(key.error)
        else e == IntentRefused && !IsJson(Obj(args))
  {
  }

  // ---------- which calls become intents ----------

  /** A call with bound arguments becomes an intent exactly if every argument converts, none
      holds a non-finite number, and a required key can be created: names usable and every
      selected field there. */
  lemma IntentExists(contract: ToolContract, fields: Option<seq<string>>, bound: seq<Binding>, id: string,
                     digest: string -> string)
    ensures IntentOf(contract, fields, bound, id, digest).Ok?
       <==> (&& ArgumentsOf(bound, |bound|).Ok?
             && var args := ArgumentsOf(bound, |bound|).value;
                var names := KeyFields(contract, fields);
                && Serializable(Obj(args))
                && (contract.idempotencyKeyRequired ==>
                      MaterialError(contract.name, names).None? && FirstMissing(args, names).None?))
  {
    ArgumentsDecide(bound, |bound|);
    match ArgumentsOf(bound, |bound|)
    case Err(_) =>
    case Ok(args) =>
      JsonMeans(Obj(args));
      KeyExists(contract.name, args, KeyFields(contract, fields), digest);
      if IsJson(Obj(args)) { SelectedAreJson(args); }
  }

  lemma SelectedAreJson(args: seq<Member>)
    requires IsJson(Obj(args))
    ensures forall k | HasKey(args, k) :: IsJson(Get(args, k).value)
  {
    forall k | HasKey(args, k) ensures IsJson(Get(args, k).value) {
      var i :| 0 <= i < |args| && args[i] == Member(k, Get(args, k).value);
    }
  }

  /** Where host keys differ but have one text, the calls are the same call: same arguments,
      same key, same intent. */
  lemma TwinCallsAreOne(contract: ToolContract, fields: Option<seq<string>>, a: seq<Binding>, b: seq<Binding>,
                        id: string, digest: string -> string)
    requires TwinBindings(a, b)
    ensures IntentOf(contract, fields, a, id, digest) == IntentOf(contract, fields, b, id, digest)
  {
    TwinArguments(a, b, |a|);
  }

  // ---------- what two protected calls share ----------

  /** A protected call that gets a key: its tool requires one, and the selected fields are
      there and are JSON. */
  ghost predicate GetsKey(contract: ToolContract, fields: Option<seq<string>>, arguments: seq<Member>) {
    && contract.idempotencyKeyRequired && Keyable(contract.name, arguments, KeyFields(contract, fields))
    && IsJson(Obj(arguments))
  }

  /** Two calls of one protected function that agree on the selected fields, up to member
      order at any depth, share one key whatever their other arguments; if they differ in a
      selected field their canonical texts differ, so they can share a key only through a
      collision of the digest. */
  lemma SelectionDecidesKey(contract: ToolContract, fields: Option<seq<string>>, args: seq<Member>, args': seq<Member>,
                            id: string, id': string, digest: string -> string)
    requires GetsKey(contract, fields, args) && GetsKey(contract, fields, args')
    requires forall t: string :: |digest(t)| == 64
    ensures var names := KeyFields(contract, fields);
      var a, b := IntentFor(contract, fields, args, id, digest), IntentFor(contract, fields, args', id', digest);
      var t, t' := Dumps(KeyMaterial(contract.name, args, names)), Dumps(KeyMaterial(contract.name, args', names));
      && a.Ok? && b.Ok? && t.Ok? && t'.Ok? && a.value.idempotencyKey.Some? && b.value.idempotencyKey.Some?
      && (SameSelection(args, args', names) ==> a.value.idempotencyKey == b.value.idempotencyKey)
      && (!SameSelection(args, args', names) ==> t != t')
      && (!SameSelection(args, args', names) && a.value.idempotencyKey == b.value.idempotencyKey ==>
            digest(t.value) == digest(t'.value))
  {
    var names := KeyFields(contract, fields);
    KeyExists(contract.name, args, names, digest);
    KeyExists(contract.name, args', names, digest);
    KeysIdentify(contract.name, args, names, contract.name, args', names, digest);
    KeyTextInjective(contract.name, args, names, contract.name, args', names);
  }

  /** The call was made through a protected function that selects these fields. */
  ghost predicate MadeBy(c: Call, contract: ToolContract, fields: Option<seq<string>>, digest: string -> string) {
    && GetsKey(contract, fields, c.action.arguments)
    && IntentFor(contract, fields, c.action.arguments, c.action.intentId, digest) == Ok(c.action)
  }

  lemma AgreeingCallsShareKey(c: Call, c': Call, contract: ToolContract, fields: Option<seq<string>>,
                              digest: string -> string)
    requires MadeBy(c, contract, fields, digest) && MadeBy(c', contract, fields, digest)
    requires SameSelection(c.action.arguments, c'.action.arguments, KeyFields(contract, fields))
    requires forall t: string :: |digest(t)| == 64
    ensures c.action.idempotencyKey.Some? && c'.action.idempotencyKey == c.action.idempotencyKey
  {
    SelectionDecidesKey(contract, fields, c.action.arguments, c'.action.arguments, c.action.intentId,
                        c'.action.intentId, digest);
  }

  /** However calls interleave, the tool runs for at most one of the protected calls that
      agree on the selected fields. */
  lemma AgreeingCallsRunOnce(s0: State, schedule: seq<Move>, i: nat, j: nat,
                             contract: ToolContract, fields: Option<seq<string>>, digest: string -> string)
    requires Init(s0) && i < j < |Run(s0, schedule).shared.calls|
    requires forall t: string :: |digest(t)| == 64
    ensures var s := Run(s0, schedule);
      var first, second := s.shared.calls[i].caller, s.shared.calls[j].caller;
      && first in s.threads && second in s.threads
      && var c, c' := s.threads[first].call, s.threads[second].call;
         !(MadeBy(c, contract, fields, digest) && MadeBy(c', contract, fields, digest)
           && SameSelection(c.action.arguments, c'.action.arguments, KeyFields(contract, fields)))
  {
    var s := Run(s0, schedule);
    Reachable(s0, schedule);
    HandlerAtMostOnce(s0, schedule);
    assert CallEntryOk(s, s.shared.calls[i]) && CallEntryOk(s, s.shared.calls[j]);
    var c, c' := s.threads[s.shared.calls[i].caller].call, s.threads[s.shared.calls[j].caller].call;
    if MadeBy(c, contract, fields, digest) && MadeBy(c', contract, fields, digest)
       && SameSelection(c.action.arguments, c'.action.arguments, KeyFields(contract, fields))
    {
      AgreeingCallsShareKey(c, c', contract, fields, digest);
      assert false;
    }
  }

  /** One after the other, from any point of any run: if both agreeing calls get to the claim of
      a key that was free, the second returns what the first returned, and the tool has run at
      most once more. (A first call that raised over its tool's output leaves the second told
      that the key is in progress.) */
  lemma AgreeingCallsReplay(s: State, t: Tid, u: Tid, contract: ToolContract, fields: Option<seq<string>>,
                            digest: string -> string)
    requires Inv(s) && t in s.threads && u in s.threads && t != u
    requires s.threads[t].local.claim.None? && s.threads[u].local.claim.None?
    requires MadeBy(s.threads[t].call, contract, fields, digest) && MadeBy(s.threads[u].call, contract, fields, digest)
    requires var c, c' := s.threads[t].call, s.threads[u].call;
      SameSelection(c.action.arguments, c'.action.arguments, KeyFields(contract, fields))
    requires forall text: string :: |digest(text)| == 64
    ensures var key := s.threads[t].call.action.idempotencyKey;
      var s1 := AfterAlone(s, t);
      u in s1.threads && key.Some?
      && var s2 := AfterAlone(s1, u);
      var c, c' := s.threads[t].call, s.threads[u].call;
      var first, second := Returned(c, s1.threads[t].local), Returned(c', s2.threads[u].local);
      key.value !in s.shared.records && s1.threads[t].local.claim.Some? && s2.threads[u].local.claim.Some? ==>
        && (first.Some? ==> second == Some(Sorted(first.value)) && SameResult(first.value, Sorted(first.value)))
        && (first.None? ==> second == Some(Failure(c', KeyInProgress, Null)))
        && |s2.shared.calls| <= |s.shared.calls| + 1
  {
    AgreeingCallsShareKey(s.threads[t].call, s.threads[u].call, contract, fields, digest);
    var key := s.threads[t].call.action.idempotencyKey.value;
    if key !in s.shared.records { SecondReturnsFirst(s, t, u, key); }
  }

  // ---------- a client that calls twice ----------

  /** A call that is made while another has yet to begin leaves that one as it is. */
  lemma JoinsCommute(s: State, t: Tid, u: Tid, c: Call, c': Call)
    requires t != u
    ensures var both := Joined(Joined(s, t, c), u, c');
      t in both.threads && AfterAlone(both, t) == Joined(Called(s, t, c), u, c')
  {
    var both, s1 := Joined(Joined(s, t, c), u, c'), Called(s, t, c);
    assert AfterAlone(both, t).threads == s1.threads[u := Thread(c', FRESH)];
  }

  lemma RanHoldsKey(s: State, t: Tid, k: string)
    requires Inv(s) && t in s.threads && s.threads[t].local.ran && s.threads[t].call.action.idempotencyKey == Some(k)
    ensures HoldsKey(s.threads[t], k)
  {
    ClaimFacts(s, t);
  }

  lemma OnlyOneRan(s: State, t: Tid, u: Tid, k: string)
    requires Inv(s) && t in s.threads && u in s.threads && t != u
    requires s.threads[t].call.action.idempotencyKey == Some(k) == s.threads[u].call.action.idempotencyKey
    ensures !(s.threads[t].local.ran && s.threads[u].local.ran)
  {
    if s.threads[t].local.ran && s.threads[u].local.ran {
      RanHoldsKey(s, t, k);
      RanHoldsKey(s, u, k);
    }
  }

  /** Two calls under one key, made one after the other, run the tool at most once more. */
  lemma TwoCallsRunOnce(s: State, t: Tid, c: Call, c': Call)
    requires Healthy(s, t) && c.script.Plausible() && c'.script.Plausible()
    requires c.action.idempotencyKey.Some? && c.action.idempotencyKey == c'.action.idempotencyKey
    ensures var s1 := Called(s, t, c);
      var s2 := Called(s1, t + 1, c');
      && |s2.shared.calls| <= |s.shared.calls| + 1
      && t in s2.threads && s2.threads[t] == s1.threads[t] && s2.threads[t].call == c && s2.threads[t + 1].call == c'
  {
    var s1 := Called(s, t, c);
    var s2 := Called(s1, t + 1, c');
    CallApart(s, t, c);
    CallApart(s1, t + 1, c');
    RanOnce(s2, t, t + 1, c.action.idempotencyKey.value);
  }

  lemma CallApart(s: State, t: Tid, c: Call)
    requires Healthy(s, t) && c.script.Plausible()
    ensures OneCallApart(s, Called(s, t, c), t, c) && Healthy(Called(s, t, c), t + 1)
  {
    assert Inv(s);
    OneMoreMoves(s, t, c);
    HealthyAfter(s, t, c);
  }

  lemma RanOnce(s: State, t: Tid, u: Tid, k: string)
    requires Healthy(s, u + 1) && t in s.threads && u in s.threads && t != u
    requires s.threads[t].call.action.idempotencyKey == Some(k) == s.threads[u].call.action.idempotencyKey
    ensures !(s.threads[t].local.ran && s.threads[u].local.ran)
  {
    assert Inv(s);
    OnlyOneRan(s, t, u, k);
  }

  /** What the second of two agreeing calls returns, given what the first returned. */
  ghost predicate Repeats(c': Call, first: Option<ExecutionResult>, second: Option<ExecutionResult>) {
    && (first.Some? ==> second == Some(Sorted(first.value)) && SameResult(first.value, Sorted(first.value)))
    && (first.None? ==> second == Some(Failure(c', KeyInProgress, Null)))
  }

  /** Two calls made by one protected function with arguments that agree on the selected fields. */
  ghost predicate Agree(c: Call, c': Call, contract: ToolContract, fields: Option<seq<string>>,
                        digest: string -> string) {
    && MadeBy(c, contract, fields, digest) && MadeBy(c', contract, fields, digest)
    && SameSelection(c.action.arguments, c'.action.arguments, KeyFields(contract, fields))
    && c.script.Plausible() && c'.script.Plausible()
  }

  lemma BothJoined(s: State, t: Tid, c: Call, c': Call)
    requires Healthy(s, t) && c.script.Plausible() && c'.script.Plausible()
    ensures Healthy(Joined(Joined(s, t, c), t + 1, c'), t + 2)
  {
    JoinedHealthy(s, t, c);
    JoinedHealthy(Joined(s, t, c), t + 1, c');
  }

  lemma JoinedHealthy(s: State, t: Tid, c: Call)
    requires Healthy(s, t) && c.script.Plausible()
    ensures Healthy(Joined(s, t, c), t + 1)
  {
    assert Inv(s);
    JoinKeeps(s, t, c);
  }

  lemma SecondRepeats(s: State, t: Tid, u: Tid, contract: ToolContract, fields: Option<seq<string>>,
                      digest: string -> string)
    requires Healthy(s, u + 1) && t in s.threads && u in s.threads && t != u
    requires s.threads[t].local == FRESH == s.threads[u].local
    requires Agree(s.threads[t].call, s.threads[u].call, contract, fields, digest)
    requires forall text: string :: |digest(text)| == 64
    ensures var s1 := AfterAlone(s, t);
      var key := s.threads[t].call.action.idempotencyKey;
      u in s1.threads && key.Some?
      && var l, l' := s1.threads[t].local, AfterAlone(s1, u).threads[u].local;
      key.value !in s.shared.records && l.claim.Some? && l'.claim.Some? ==>
        Repeats(s.threads[u].call, Returned(s.threads[t].call, l), Returned(s.threads[u].call, l'))
  {
    assert Inv(s);
    AgreeingCallsReplay(s, t, u, contract, fields, digest);
  }

  /** What becomes of two agreeing calls in a row: the tool runs at most once more, and if the key
      was free and both calls got to their claim, the second answer is the first again. */
  ghost predicate AnsweredTwice(s: State, s': State, t: Tid, c: Call, c': Call, first: Option<ExecutionResult>,
                                second: Option<ExecutionResult>) {
    && |s'.shared.calls| <= |s.shared.calls| + 1
    && t in s'.threads && s'.threads[t].call == c && t + 1 in s'.threads && s'.threads[t + 1].call == c'
    && c.action.idempotencyKey.Some?
    && (c.action.idempotencyKey.value !in s.shared.records ==>
          s'.threads[t].local.claim.Some? && s'.threads[t + 1].local.claim.Some? ==> Repeats(c', first, second))
  }

  lemma TwoCallsAnswer(s: State, t: Tid, c: Call, c': Call, contract: ToolContract, fields: Option<seq<string>>,
                       digest: string -> string)
    requires Healthy(s, t) && Agree(c, c', contract, fields, digest) && forall text: string :: |digest(text)| == 64
    ensures var s1 := Called(s, t, c);
      var s2 := Called(s1, t + 1, c');
      AnsweredTwice(s, s2, t, c, c', Returned(c, s1.threads[t].local), Returned(c', s2.threads[t + 1].local))
  {
    BothJoined(s, t, c, c');
    JoinsCommute(s, t, t + 1, c, c');
    AgreeingCallsShareKey(c, c', contract, fields, digest);
    SecondRepeats(Joined(Joined(s, t, c), t + 1, c'), t, t + 1, contract, fields, digest);
    TwoCallsRunOnce(s, t, c, c');
  }

  /** The call that the wrapper makes of bound arguments that become an intent. */
  function CallOf(contract: ToolContract, fields: Option<seq<string>>, bound: seq<Binding>, id: string,
                  digest: string -> string, script: Script): Call
    requires IntentOf(contract, fields, bound, id, digest).Ok?
  {
    Call(IntentOf(contract, fields, bound, id, digest).value, script)
  }

  /** The call of a tool that requires a key is one made by its protected function. */
  lemma CallIsMadeBy(contract: ToolContract, fields: Option<seq<string>>, bound: seq<Binding>, id: string,
                     digest: string -> string, script: Script)
    requires contract.idempotencyKeyRequired && IntentOf(contract, fields, bound, id, digest).Ok?
    ensures var c := CallOf(contract, fields, bound, id, digest, script);
      MadeBy(c, contract, fields, digest) && c.action.arguments == ArgumentsOf(bound, |bound|).value
  {
    var args := ArgumentsOf(bound, |bound|).value;
    ArgumentsDecide(bound, |bound|);
    KeyExists(contract.name, args, KeyFields(contract, fields), digest);
  }

  /** Two calls of a tool that requires a key: both become intents, and their arguments agree on
      the selected fields. */
  ghost predicate Twofold(contract: ToolContract, fields: Option<seq<string>>, a: seq<Binding>, b: seq<Binding>,
                          id: string, id': string, digest: string -> string) {
    && contract.idempotencyKeyRequired && (forall text: string :: |digest(text)| == 64)
    && IntentOf(contract, fields, a, id, digest).Ok? && IntentOf(contract, fields, b, id', digest).Ok?
    && SameSelection(ArgumentsOf(a, |a|).value, ArgumentsOf(b, |b|).value, KeyFields(contract, fields))
  }

  lemma TwofoldAgree(contract: ToolContract, fields: Option<seq<string>>, a: seq<Binding>, b: seq<Binding>,
                     id: string, id': string, digest: string -> string, script: Script, script': Script)
    requires Twofold(contract, fields, a, b, id, id', digest) && script.Plausible() && script'.Plausible()
    ensures Agree(CallOf(contract, fields, a, id, digest, script), CallOf(contract, fields, b, id', digest, script'),
                  contract, fields, digest)
  {
    CallIsMadeBy(contract, fields, a, id, digest, script);
    CallIsMadeBy(contract, fields, b, id', digest, script');
  }

  lemma BothAnswered(s: State, s1: State, s2: State, t: Tid, c: Call, c': Call, first: Option<ExecutionResult>,
                     second: Option<ExecutionResult>, contract: ToolContract, fields: Option<seq<string>>,
                     digest: string -> string)
    requires Healthy(s, t) && Agree(c, c', contract, fields, digest) && forall text: string :: |digest(text)| == 64
    requires Answered(s, s1, t, c, first) && Answered(s1, s2, t + 1, c', second)
    ensures AnsweredTwice(s, s2, t, c, c', first, second)
  {
    assert s1 == Called(s, t, c) && s2 == Called(s1, t + 1, c');
    TwoCallsAnswer(s, t, c, c', contract, fields, digest);
  }

  /** What two such calls lead to. */
  lemma TwofoldAnswered(s: State, s1: State, s2: State, t: Tid, u: Tid, contract: ToolContract,
                        fields: Option<seq<string>>, a: seq<Binding>, b: seq<Binding>, id: string, id': string,
                        digest: string -> string, script: Script, script': Script,
                        first: Option<ExecutionResult>, second: Option<ExecutionResult>)
    requires Healthy(s, t) && u == t + 1 && Twofold(contract, fields, a, b, id, id', digest)
    requires script.Plausible() && script'.Plausible()
    requires Answered(s, s1, t, CallOf(contract, fields, a, id, digest, script), first)
    requires Answered(s1, s2, u, CallOf(contract, fields, b, id', digest, script'), second)
    ensures AnsweredTwice(s, s2, t, CallOf(contract, fields, a, id, digest, script),
                          CallOf(contract, fields, b, id', digest, script'), first, second)
  {
    TwofoldAgree(contract, fields, a, b, id, id', digest, script, script');
    BothAnswered(s, s1, s2, t, CallOf(contract, fields, a, id, digest, script),
                 CallOf(contract, fields, b, id', digest, script'), first, second, contract, fields, digest);
  }

  /** A client's call that becomes an intent. */
  method CallOnce(app: AgentActum, contract: ToolContract, fields: Option<seq<string>>, bound: seq<Binding>,
                  id: string, script: Script, digest: string -> string)
    returns (r: Option<ExecutionResult>)
    requires app.Valid() && script.policies == app.engine.policies && script.Plausible()
    requires IntentOf(contract, fields, bound, id, digest).Ok?
    modifies app, app.backend, app.ledger
    ensures app.Valid() && app.next == old(app.next) + 1
    ensures Answered(old(app.World()), app.World(), old(app.next),
                     CallOf(contract, fields, bound, id, digest, script), r)
  {
    var answer := app.CallTool(contract, fields, bound, id, script, digest);
    r := answer.value;
  }

  /** A client that calls a protected function of a tool that requires a key twice, with arguments
      that agree on the selected fields. */
  method CallTwice(app: AgentActum, contract: ToolContract, fields: Option<seq<string>>, a: seq<Binding>,
                   b: seq<Binding>, id: string, id': string, script: Script, script': Script,
                   digest: string -> string)
    returns (first: Option<ExecutionResult>, second: Option<ExecutionResult>)
    requires app.Valid() && script.policies == app.engine.policies == script'.policies
    requires script.Plausible() && script'.Plausible()
    requires Twofold(contract, fields, a, b, id, id', digest)
    modifies app, app.backend, app.ledger
    ensures app.Valid()
    ensures AnsweredTwice(old(app.World()), app.World(), old(app.next),
                          CallOf(contract, fields, a, id, digest, script),
                          CallOf(contract, fields, b, id', digest, script'), first, second)
  {
    ghost var s, t := app.World(), app.next;
    first := CallOnce(app, contract, fields, a, id, script, digest);
    ghost var s1, u := app.World(), app.next;
    second := CallOnce(app, contract, fields, b, id', script', digest);
    TwofoldAnswered(s, s1, app.World(), t, u, contract, fields, a, b, id, id', digest, script, script', first, second);
  }
}
