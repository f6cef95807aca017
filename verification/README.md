# Verified model of the AgentActum safety runtime

AgentActum stands between an agent and its tools. A request to call a tool goes through a row of
gates: contract match, schema validation, policies, approval, an idempotency claim,
preconditions. Then the tool is called, its output validated, its postconditions checked, and the
result stored under the idempotency key. This project models that pipeline and the components
around it, and proves what the gates are for.

## How the model is built

* **The pipeline as a step system** (`Pipeline`, `CallInvariant`, `ConcurrentRuntime`). One call is
  a program counter with a few variables. A step is either a private decision or one atomic access
  to what calls share: the record map, the ledger, the tool. `ConcurrentRuntime` interleaves any
  number of calls in every order, with tools being registered meanwhile. Everything the host
  decides during a call (identifiers, clock readings, policy answers, approval, check answers, the
  handler's outcome, which ledger appends fail) is a `Script` fixed in advance; a theorem about all
  scripts is a theorem about all behaviours of the host. `RuntimeSafety` holds the safety theorems,
  `AuditTrail` what the ledger says about each call, `MemoTable` the refinement to a memo table,
  `EventDetails` what each event says, `Verdicts` the truth of every answer, `ReturnedAnswers` the
  whole result each call returns, `ClaimFates` what becomes of every claim.
* **The pipeline as code** (`Runtime`, `Facade`). `SingleActionRuntime.Execute` is the sequential
  method with its loops and early returns over real backend and ledger objects. Its contract says
  that its effect and answer are those of the step system's own run of that call, and
  `SequentialCalls.OutcomeIsASchedule` says that they are those of one of the schedules, so every
  theorem about schedules is a theorem about the method. The method is cut into one helper per phase.
  `AgentActum` keeps, as ghost state, the system its calls belong to; `Facade.CallTwice` is a client
  proved from the contract of its wrapper alone.
* **Data algorithms.** `SchemaValidation` (the JSON Schema subset) and `SchemaMeaning` (what it
  accepts, schema by schema), `JsonText` (printer and parser
  for RFC 8259 text, sections 4 to 7, as `json.dumps` writes it, with `\u` escapes and surrogate
  pairs) and `JsonSpelling`, `CanonicalText` (sorted keys), `IdempotencyKeys`, `ExecutionResults` (the stored form of
  a result), `HostValues` (bound arguments to JSON, where `Facade` starts).
* **Components.** `Policies`, `PolicyComposition` and `BuiltInPolicies`, `Idempotency`, `AuditLedger`, `Compensation`
  and `CompensationLaws`, `Outbox`, `OutboxLaws` and `OutboxRaces`, `Transactions`.

## Assumptions

* The runtime's clock does not run backwards within a call (`Script.Plausible`). The outbox and the
  compensation coordinator make no such assumption: `OutboxLaws.ReleaseExactly` and
  `CompensationLaws.ReturnsExactly` say what a backward clock does. At-most-once release of the
  outbox holds for handlers that answer JSON or raise under a clock that does not run backwards
  (`Outbox.Monotone`), and `OutboxRaces.AtMostOnceExactly` says that no other handlers will do.
* A field of type `JsonValue` or `JsonObject` accepts exactly null, booleans, integers, finite
  floats, texts, lists, and dictionaries with text keys, as the strict configuration in
  `src/agentactum/_model.py:35-41` asks. What `json.dumps` writes but such a field refuses (a tuple,
  or what a dictionary holds under a key that is not text) is the leaf `Loose` of `Json.Value`; an
  entry under such a key counts as a member under a name that no schema mentions. What `json.dumps`
  refuses is `NonFinite` or `Opaque`. Arguments of `create_key` are of their declared JSON type.
* A tool's output is not changed after the tool returned it. (A postcondition that kept a reference
  could, and `json.dumps` could then fail at `src/agentactum/execution/runtime.py:405`.) Integers stay
  below the interpreter's limit for their conversion to text, above which `json.dumps` raises.
* Identifiers are texts. New outbox operations get unused ones; the runtime's theorems need no
  distinctness of identifiers or owner tokens.
* Dictionaries have distinct keys (`Json.WellFormed`). A float is identified with its shortest
  decimal text; strings are sequences of Unicode scalar values; times are stored as decimal counts of
  microseconds rather than ISO 8601 text. Comparisons of a number with a bound are over the reals.
* The digest is any function to texts of 64 characters. It is never assumed injective, which no such
  function is: equal keys mean equal selections, or two exhibited texts on which the digest collides.

## Where the code and its documentation differ

The model follows the code. A key is bound to no fingerprint of the intent, so a call under a used
key gets the stored result whatever its other arguments (`SequentialCalls.UsedKeyAnswers`), where
`docs/security-invariants.md` asks for a conflict. There is no INDETERMINATE status and no approval
grant. `Transaction.transition` lets update times go back, exactly as far as its callers ask
(`Transactions.UpdatesGrowExactly`).

`PolicyEngine.evaluate` is described as failing closed, but it raises exactly when answers that allow
with constraints repeat a constraint name (`PolicyComposition.EvaluateRaisesIff`). That is one of the
two exceptions that can leave `execute` (`RuntimeSafety.OnlyTwoRaise`). The other comes after the tool
ran: its output passed `json.dumps` but the result's output field refuses it, exactly when every gate
on the way to the tool is open and the tool answers with a tuple or a key that is not text
(`ClaimFates.RefusedExactly`, `ClaimFates.RefusalHappens`). The claim is then never completed, and
every later call under the key is told that the key is in progress (`ClaimFates.RefusedKeyIsBlocked`).

The same refusal leaves an outbox operation staged after its handler ran, so the next release calls the
handler again (`OutboxRaces.CalledTwice`), and it ends a compensation run with no summary and with the
earlier plans not handled (`CompensationLaws.RaiseEndsRun`). A compensation run also reports that
nothing was required although a skipped idempotent write stays in effect
(`CompensationLaws.SkippedWriteStays`).

## Model

| member | source | states |
|---|---|---|
| RuntimeSafety.HandlerAtMostOnce | src/agentactum/execution/runtime.py:261-346 | in every interleaving no call runs its tool twice, and no two calls with one key both run theirs |
| RuntimeSafety.OneOwner | src/agentactum/execution/runtime.py:261-415 | every record has exactly one owner and no claim is held without a record; an in-progress record's owner is between its claim and its completion, or raised over its tool's output; a completed record holds the encoding of the result its owner returned |
| RuntimeSafety.CompletedIsFinal | src/agentactum/idempotency/backend.py:81-107 | once a key's record is completed it never changes, and no later tool call is made under that key |
| RuntimeSafety.RunGrows | src/agentactum/execution/runtime.py:107-415 | over every run the ledger and the tool calls are only appended to, registered tools and completed records stay, finished calls stay finished |
| AuditTrail.EventGrammar | src/agentactum/execution/runtime.py:114-436 | when intent ids are distinct, the events stored under a call's intent id are exactly the event word for how the call ended (for how far it got, if it has not), without the kinds of event whose appends fail |
| AuditTrail.SurvivingWhole | src/agentactum/execution/runtime.py:417-436 | nothing is left out of a word exactly if none of its appends fails |
| AuditTrail.WordsSpelled | src/agentactum/execution/runtime.py:114-415 | the main events in order: received, validated, evaluated, started, succeeded |
| AuditTrail.FailureWordsSpelled | src/agentactum/execution/runtime.py:114-415 | the events of every other ending, reason by reason: which main events come first and which event of its own follows |
| EventDetails.EventsReport | src/agentactum/execution/runtime.py:114-436 | in every interleaving each event carries the intent id of the call that appended it, its transaction id exactly if it is one of the five kinds from `execution_started` on, and the details of its kind: the tool name, the contract id, the type and risk the policies decided, the message of the schema violation, the decision awaiting approval, whether the record found was completed |
| EventDetails.DecisionMeans | src/agentactum/execution/runtime.py:196-209 | the type and risk in a `policy_evaluated` event are those of what the engine returns |
| AuditTrail.HandlerCallIsAnnounced | src/agentactum/execution/runtime.py:309-328 | when the tool is called the ledger already holds, under that call's intent id, `action_received` and after it `execution_started` |
| AuditTrail.LedgerIsNumbered | src/agentactum/ledger/backend.py:56-69 | after every interleaving, with any appends failing, sequence numbers are 1..n and earlier ledgers are prefixes of later ones |
| RuntimeSafety.EndToEndAdmission | src/agentactum/execution/runtime.py:129-324 | if the tool was called, it was registered, the intent matched, the arguments conformed, no policy objected, demanded approval was given, a required key was present and every precondition passed |
| RuntimeSafety.OnlyTwoRaise | src/agentactum/execution/runtime.py:107-415 | only two exceptions leave a call: the policy engine's, exactly when constraint names clash, with no claim held and no tool called; and the result's refusal of the output of a tool that was called |
| ClaimFates.RefusedExactly | src/agentactum/execution/runtime.py:107-415 | from any point of any run, a call yet to begin ends by raising over its tool's output exactly if all gates to the tool it finds are open, the tool answers with something `json.dumps` accepts that holds a tuple or a key that is not text, and its claim, if it has a key, is its own; a tool registered before is the one it finds |
| ClaimFates.RefusedAlone | src/agentactum/execution/runtime.py:107-415 | for a call made alone the whole condition is known before the call: the gates, the answer, and that its key, if it has one, is free |
| ClaimFates.RefusalHappens | src/agentactum/execution/runtime.py:398-415 | it happens: a call under the key "k" whose tool answers with a tuple raises and leaves "k" in progress |
| ClaimFates.ClaimsAreSettled | src/agentactum/execution/runtime.py:261-475 | an acquired claim, once its owner has had its bounded turns under any schedule, is completed with the owner's own result; it is left in progress exactly if the gates to the tool were open and its answer is one the result refuses |
| ClaimFates.RefusedKeyIsBlocked | src/agentactum/execution/runtime.py:262-285 | the key of a refused output stays in progress for good: no other call runs the tool under it, and every other call that reaches the claim and returns is told "in progress" |
| Verdicts.AnswersAreMerited | src/agentactum/execution/runtime.py:107-415 | every answer is true: a failure names a gate that did not open after all earlier ones had, success means all opened, and the tool was called exactly when the answer implies it |
| Verdicts.SucceedsExactly | src/agentactum/execution/runtime.py:398-415 | a finished call that answers for itself succeeds exactly if every gate from receipt to the last postcondition was open, constraint names did not clash and the output held nothing the result refuses; it then returns what the tool returned |
| Verdicts.ResultReveals | src/agentactum/execution/runtime.py:438-460 | a result's postcondition verdict is absent exactly when the tool did not run and true exactly on success |
| ReturnedAnswers.AnswersAsExpected | src/agentactum/execution/runtime.py:107-475 | from any point of any run and under any schedule, a call that began fresh returns, field by field, the result spelled out from the request, the host's answers, the tool it found and the record it found: for each gate that closes its code and message in literal text, the output and the postcondition verdict as they stand; it raises exactly where that says so |
| ReturnedAnswers.AloneAsExpected | src/agentactum/execution/runtime.py:107-475 | for a call made alone that result is known before the call, from the tool registered under its name and the record kept under its key |
| ReturnedAnswers.ExecuteAnswers | src/agentactum/execution/runtime.py:107-475 | it is what the method answers |
| ReturnedAnswers.ContractCodes | src/agentactum/execution/runtime.py:129-189 | "unknown_tool", "contract_mismatch" and "input_validation_failed" are answered exactly when the tool is missing, one of the three identifiers differs, or the arguments violate the schema, in that order |
| ReturnedAnswers.PolicyCodes | src/agentactum/execution/runtime.py:196-260 | "policy_denied", "approval_required" and "idempotency_key_missing" are answered exactly when the policies deny, when they ask for approval that is not given, and when a required key is missing |
| ReturnedAnswers.ToolCodes | src/agentactum/execution/runtime.py:287-396 | past the claim, "precondition_failed", "ledger_error", "tool_execution_failed", "output_validation_failed" and "postcondition_failed" each have their exact condition |
| ReturnedAnswers.ChecksAnswer | src/agentactum/execution/runtime.py:287-396 | on the returned result of any finished call that answers for itself: "precondition_failed" exactly when all earlier gates were open and a precondition was not met, "postcondition_failed" exactly when the tool was called, its output conforms and a postcondition was not met |
| RuntimeSafety.TurnAdvances | src/agentactum/execution/runtime.py:107-415 | every step of an unfinished call lowers its bound on remaining steps |
| RuntimeSafety.CallsTerminate | src/agentactum/execution/runtime.py:107-415 | a call is over after a bounded number of its own turns, whatever other calls do |
| CallInvariant.NextKeeps | src/agentactum/execution/runtime.py:107-415 | the next act of a call keeps its invariant: claim shape, storable result or refused output, event word so far, admission so far |
| ConcurrentRuntime.DoKeeps | src/agentactum/execution/runtime.py:107-415 | one step of any call, or a registration, keeps the whole system's inductive invariant |
| ConcurrentRuntime.RunInv | src/agentactum/execution/runtime.py:107-415 | the invariant holds after every interleaving |
| MemoTable.RuntimeRefinesMemoTable | src/agentactum/execution/runtime.py:262-285 | the claims and replies of keyed calls are, in every interleaving, those of a memo table that starts blank: the first claim takes the slot and its caller fills it with its own result, every other claim answers once what it found, the filled result or "in progress"; the table they lead to represents the final records and calls |
| MemoTable.OneReplyEach | src/agentactum/execution/runtime.py:107-415 | no call replies twice |
| MemoTable.BusyMeansTaken | src/agentactum/execution/runtime.py:262-285 | "in progress" is answered only if, when the call made its claim, another call had claimed the key and had not given its result |
| MemoTable.EveryAnswerIsAReply | src/agentactum/execution/runtime.py:262-415 | no answer is left out: what a keyed call that got to its claim returned is among the replies explained |
| MemoTable.AnswersAgree | src/agentactum/execution/runtime.py:568-571 | any two answers under one key are the same result, field for field, up to the member order of the output |
| Runtime.SingleActionRuntime.Execute | src/agentactum/execution/runtime.py:107-415 | the method's effect on records, ledger and tool calls, and its answer, are those of the step system's run of that call; what that answer is, `ReturnedAnswers.ExecuteAnswers` spells out |
| Runtime.SingleActionRuntime.AppendEvent | src/agentactum/execution/runtime.py:417-436 | appends the event or reports the failure; both are the step system's append |
| Runtime.SingleActionRuntime.CompleteAndReturn | src/agentactum/execution/runtime.py:462-475 | completes the claim, if any, with the very result returned |
| Runtime.SingleActionRuntime.RunChecked | src/agentactum/execution/runtime.py:287-307 | the loop over preconditions, stopping at the first not met, refines the steps |
| Runtime.SingleActionRuntime.CheckOutcome | src/agentactum/execution/runtime.py:372-396 | the loop over postconditions, stopping at the first not met, refines the steps |
| SequentialCalls.AloneIsASchedule | src/agentactum/execution/runtime.py:107-415 | a call run alone is the concurrent system under one particular schedule, and it finishes |
| SequentialCalls.OutcomeIsASchedule | src/agentactum/execution/runtime.py:107-415 | what the method leaves and returns is what the concurrent system reaches, and the call returns, under that schedule |
| SequentialCalls.UsedKeyAnswers | src/agentactum/execution/runtime.py:262-285 | from any state of any run, a call under a used key that gets to the claim returns the stored result, or "in progress" if there is none yet, whatever its other arguments; it calls no tool and changes no record |
| SequentialCalls.FreeKeyIsKept | src/agentactum/execution/runtime.py:462-475 | from any state of any run, the first call under a free key that gets to the claim leaves its own result stored, unless it raised over its tool's output, which leaves the key in progress |
| SequentialCalls.SecondReturnsFirst | src/agentactum/execution/runtime.py:261-285 | from any state of any run, of two calls in a row under a free key the second returns the first's result (or "in progress" if the first raised over its tool's output), and the tool runs at most once |
| Facade.AgentActum.CallTool | src/agentactum/facade.py:69-103 | the wrapper, from bound host values on, raises conversion, key and intent errors without touching anything; otherwise exactly one more call has run in the system, that of the intent it built, and its answer is returned |
| Facade.CallTwice | tests/unit/test_facade.py:74-88 | a client that calls a protected function twice with agreeing selected arguments: the tool runs at most once more, and if the key was free and both calls got to their claim the second answer is the first again |
| Facade.IntentExists | src/agentactum/facade.py:69-91 | a call becomes an intent exactly if every argument converts, none holds a non-finite number, and a required key can be created |
| Facade.IntentIs | src/agentactum/facade.py:69-91 | an intent that was built carries the contract's id, name and version, the caller's id and the converted arguments; it has a key exactly if the contract requires one, of the form version, tool name, digest of the canonical text of the selected fields |
| Facade.IntentErrors | src/agentactum/facade.py:69-91 | otherwise the wrapper raises the first of: the argument that does not convert, the error of the key, the refusal of the arguments field |
| Facade.FieldsSelected | src/agentactum/facade.py:72-82 | the fields the caller gave are the ones selected; without them the schema's "required" list of names is, or nothing if it is no such list |
| Facade.AnsweredAsExpected | src/agentactum/facade.py:92-103 | what a client's call returns is the result spelled out in `ReturnedAnswers`, from the registry and the records as they stood before it |
| Facade.TwinCallsAreOne | src/agentactum/facade.py:118-134 | calls whose arguments differ only in host keys with one text are the same call: same arguments, same key, same intent |
| Facade.AgentActum.Protect | src/agentactum/facade.py:65-66 | registers the tool under its name, once, which is one step of the system |
| Facade.SelectionDecidesKey | src/agentactum/facade.py:72-82 | agreeing on the selected fields gives one key whatever the other arguments; disagreeing gives different canonical texts |
| Facade.AgreeingCallsRunOnce | src/agentactum/facade.py:69-103 | in every interleaving the tool runs for at most one of the protected calls that agree on the selected fields |
| Facade.AgreeingCallsReplay | src/agentactum/facade.py:69-103 | one after the other, from any state of any run with the key free, the second of two agreeing calls returns the first's result and the tool runs at most once more |
| HostValues.AsJsonDecides | src/agentactum/facade.py:125-135 | conversion succeeds exactly on JSON-compatible values and gives distinct keys at every depth |
| HostValues.LastEntryWins | src/agentactum/facade.py:130-134 | where host keys have one text, the converted value of the last entry is kept |
| HostValues.BindPlaces | src/agentactum/facade.py:130-134 | a key bound again keeps its place, a new one comes last |
| HostValues.BindArguments | src/agentactum/facade.py:110-122 | the loop converts the bound arguments in order, or names the first that does not convert |
| HostValues.ArgumentsDecide | src/agentactum/facade.py:110-122 | the arguments convert exactly if each does, and then have distinct names and fit the JSON type; otherwise the error names the first that does not convert |
| HostValues.ArgumentsAre | src/agentactum/facade.py:118-122 | arguments of distinct names are listed in binding order, each under its own name with its converted value |
| HostValues.KeyTexts | src/agentactum/facade.py:130-134 | dictionary keys become "True", "False", "None", the number's text, or the text they are |
| HostValues.TwinsConvertAlike | src/agentactum/facade.py:130-134 | host values that differ only in the kinds of dictionary keys, not their texts, become one JSON value |
| HostValues.JsonIsKept | src/agentactum/facade.py:125-135 | every value of JSON type converts to itself, member order included |
| Idempotency.InMemoryIdempotencyBackend.ClaimKey | src/agentactum/idempotency/backend.py:60-74 | returns the existing record, or stores and returns a new in-progress one |
| Idempotency.InMemoryIdempotencyBackend.MarkCompleted | src/agentactum/idempotency/backend.py:81-107 | completes the caller's in-progress record, returns a completed one unchanged, and refuses unknown keys and foreign tokens |
| Idempotency.ClaimExactly | src/agentactum/idempotency/backend.py:60-74 | a claim is granted exactly if the key has no record, and stores one in progress under the caller's token and claim time, with no completion, reference or result; otherwise nothing changes |
| Idempotency.CompletionExactly | src/agentactum/idempotency/backend.py:81-107 | an unknown key and a foreign token are refused, each by its own error; the owner completes a record in progress with the given result, reference and time unless that is before the claim, and gets a completed one back unchanged |
| Idempotency.ValidExactly | src/agentactum/idempotency/models.py:29-45 | a record in progress has no completion data; a completed one has a completion time not before its claim |
| Idempotency.BackendRun | src/agentactum/idempotency/backend.py:60-107 | over every run of claims and completions a key is granted at most once, exactly once if claimed while free; records stay valid and are only extended |
| Idempotency.ForeignTokenRejected | src/agentactum/idempotency/backend.py:91-93 | only the claiming token changes a record, and only while it is in progress |
| AuditLedger.InMemoryLedger.Append | src/agentactum/ledger/backend.py:45-69 | adds one event numbered by the new length |
| AuditLedger.LedgerRun | src/agentactum/ledger/backend.py:55-74 | whatever appends fail, numbers are 1..n in storage order, snapshots are prefixes, and exactly the stored entries were added in order |
| Pipeline.BuiltResultsAreValid | src/agentactum/execution/models.py:31-43 | a result is built exactly when its output is JSON and the result validator passes, and it carries the ending's output |
| ExecutionResults.ReplayEncode | src/agentactum/execution/runtime.py:462-475 | a stored result decodes to itself, failures included, with its output's members sorted |
| ExecutionResults.EncodedIsJson | src/agentactum/execution/runtime.py:474 | the stored form is JSON, so storing it cannot fail |
| ExecutionResults.FieldsSpelled | src/agentactum/execution/models.py:16-30 | the stored form has nine members; identifiers, success flag and output stand under these names |
| ExecutionResults.OtherFieldsSpelled | src/agentactum/execution/models.py:16-30 | times, error and postcondition verdict stand under these names |
| ExecutionResults.ErrorSpelled | src/agentactum/execution/models.py:11-15 | an error is stored under "code" and "message" |
| ExecutionResults.ValidExactly | src/agentactum/execution/models.py:31-43 | a result is valid exactly if its times are in order and it failed with an error, or succeeded without one and without a failed postcondition |
| ExecutionResults.DecodedIs | src/agentactum/execution/runtime.py:568-571 | only an object with exactly the nine fields is read back, and only as a valid result |
| SchemaValidation.ValidateDecides | src/agentactum/execution/runtime.py:498-540 | validation succeeds exactly on conforming values; the JSON check repeated at every level accepts what one check at the root accepts |
| SchemaValidation.ValidateReportsFirst | src/agentactum/execution/runtime.py:498-550 | the complaint is the first violation in depth-first order |
| SchemaValidation.ViolationsAreReal | src/agentactum/execution/runtime.py:498-550 | every listed violation names a path to a subvalue and subschema, or a missing required field, that really violate |
| SchemaValidation.SchemaErrorDecides | src/agentactum/execution/runtime.py:490-495 | an error message is given exactly for non-conforming values, and it is the message of a real violation at its path; what conforming means for each schema, and the messages in literal text, are the rows from `SchemaMeaning` |
| SchemaValidation.ConformsUpToOrder | src/agentactum/execution/runtime.py:498-540 | acceptance does not depend on member order in value or schema |
| SchemaValidation.NarrowingIsSound | src/agentactum/execution/runtime.py:498-550 | whatever a narrower schema accepts the wider one accepts |
| SchemaMeaning.TextsAccepted | src/agentactum/execution/runtime.py:521-523 | type "string" accepts exactly texts; anything else is told "$ must be a string" |
| SchemaMeaning.BooleansAccepted | src/agentactum/execution/runtime.py:533-535 | type "boolean" accepts exactly booleans |
| SchemaMeaning.ListsAccepted | src/agentactum/execution/runtime.py:536-538 | type "array" accepts exactly the lists that `json.dumps` accepts |
| SchemaMeaning.ObjectsMustBe | src/agentactum/execution/runtime.py:502-504 | under type "object" whatever is no object is told "$ must be an object" |
| SchemaMeaning.AnythingAccepted | src/agentactum/execution/runtime.py:539-541 | a schema without a type accepts exactly what `json.dumps` accepts |
| SchemaMeaning.OtherTypesRefused | src/agentactum/execution/runtime.py:539-540 | any other type refuses every value |
| SchemaMeaning.IntegersAccepted | src/agentactum/execution/runtime.py:524-527 | type "integer" accepts exactly integers, not booleans, that are not below the minimum |
| SchemaMeaning.NumbersAccepted | src/agentactum/execution/runtime.py:528-532 | type "number" accepts exactly finite integers and floats that are not below the minimum |
| SchemaMeaning.IntegerMinimum | src/agentactum/execution/runtime.py:544-552 | against an integer minimum m an integer n is accepted exactly if n >= m |
| SchemaMeaning.FloatMinimum | src/agentactum/execution/runtime.py:544-552 | numbers and minima compare as the real numbers they stand for |
| SchemaMeaning.NonFiniteMinimum | src/agentactum/execution/runtime.py:544-552 | an infinite or NaN minimum as Python compares it |
| SchemaMeaning.ObjectsAccepted | src/agentactum/execution/runtime.py:502-520 | type "object" accepts exactly the objects that have every required field, whose present properties are accepted by their own schemas, and that `json.dumps` accepts |
| SchemaMeaning.MissingFieldNamed | src/agentactum/execution/runtime.py:505-509 | the first missing required field is named |
| SchemaMeaning.BadPropertyNamed | src/agentactum/execution/runtime.py:510-520 | otherwise the complaint is that of the first property whose schema complains, under the property's path |
| SchemaMeaning.OnlyJsonLeft | src/agentactum/execution/runtime.py:541 | with fields and properties in order only the JSON check is left, with its message |
| SchemaMeaning.NumeralsSpelled | src/agentactum/execution/runtime.py:544-552 | what decimal numerals stand for, by example, with fraction, exponent and sign |
| JsonText.ParsePrint | src/agentactum/idempotency/keys.py:55-60 | reading a printed JSON value gives it back and leaves the rest of the text |
| JsonSpelling.PrintSpelled | src/agentactum/idempotency/keys.py:55-60 | the text of each kind of value, with the separators "," and ":" and nothing else between its parts |
| JsonSpelling.ShortEscapes | src/agentactum/idempotency/keys.py:55-60 | the seven characters with short escapes, and the printable ones written as they are |
| JsonSpelling.LongEscapes | src/agentactum/idempotency/keys.py:55-60 | a character without a short escape that is not printable ASCII is written as four lower-case hexadecimal digits, or as a surrogate pair of such |
| CanonicalText.LoadsDumps | src/agentactum/execution/runtime.py:568-571 | writing then reading gives the value up to member order |
| CanonicalText.DumpsInjective | src/agentactum/idempotency/keys.py:55-60 | canonical texts are equal exactly when values differ only in member order |
| CanonicalText.CanonIffSame | src/agentactum/idempotency/keys.py:59 | sorting members identifies exactly the values equal up to member order at every depth |
| CanonicalText.StrLessMeans | src/agentactum/idempotency/keys.py:59 | the order of members: the smaller code point where two names first differ, a proper prefix first |
| IdempotencyKeys.CreateKey | src/agentactum/idempotency/keys.py:27-62 | the loop computes the specified key, or the first error in the code's order |
| IdempotencyKeys.KeyExists | src/agentactum/idempotency/keys.py:40-73 | a key is created exactly when names are usable, all selected fields are there and their values are JSON |
| IdempotencyKeys.ErrorsInOrder | src/agentactum/idempotency/keys.py:27-73 | which error is raised: blank tool name, no field, repeated field, blank field, missing field, the first of these that applies |
| IdempotencyKeys.MissingIsFirst | src/agentactum/idempotency/keys.py:40-48 | the missing field named is the first |
| IdempotencyKeys.SpacesSpelled | src/agentactum/idempotency/keys.py:65-73 | the blank characters, one by one |
| IdempotencyKeys.BlankMeans | src/agentactum/idempotency/keys.py:65-73 | a text is blank exactly if all its characters are |
| IdempotencyKeys.KeySpelled | src/agentactum/idempotency/keys.py:61-62 | the key is "agentactum:v1:", the tool name, ":" and the digest of the canonical text |
| IdempotencyKeys.KeyTextInjective | src/agentactum/idempotency/keys.py:49-60 | the canonical text determines tool, field sequence and selected values up to member order, and nothing else affects it |
| IdempotencyKeys.KeysIdentify | src/agentactum/idempotency/keys.py:61-62 | equal keys mean agreement, or two different texts with one digest |
| Policies.PolicyEngine.Run | src/agentactum/policies/engine.py:43-104 | the loop with its fail-closed early returns computes the specified decision; what that is, the rows from `BuiltInPolicies` spell out |
| PolicyComposition.SettleIsJoin | src/agentactum/policies/engine.py:43-104 | the decision type is the join of the contract's floor and what each answer demands |
| PolicyComposition.EvaluateAppend | src/agentactum/policies/engine.py:309-370 | an engine with policies P and Q decides the stricter of what each decides, and raises exactly if that is a constrained allow in which the constraints of both repeat a name; adding policies never weakens |
| PolicyComposition.EvaluatePermutes | src/agentactum/policies/engine.py:43-104 | the order of the policies decides neither whether `evaluate` raises nor the type, the risk and the multiset of constraints of what it returns |
| PolicyComposition.RiskFloor | src/agentactum/policies/engine.py:395-400 | the risk is never below the contract's, nor any answer's when all are usable |
| PolicyComposition.AdmittedMeans | src/agentactum/policies/engine.py:309-370 | not denied exactly when no answer objects; approval required exactly when an answer or the risk demands it |
| PolicyComposition.EvaluateRaisesIff | src/agentactum/policies/models.py:32-45 | evaluation raises exactly when a constrained allow would repeat a constraint name |
| PolicyComposition.EvaluateCanRaise | src/agentactum/policies/models.py:32-45 | two policies with one constraint name make it raise |
| PolicyComposition.BuiltInsAreWellBehaved | src/agentactum/policies/engine.py:107-283 | the four built-in policies answer for the intent asked about, at the contract's risk, without constraints |
| PolicyComposition.BuiltInEngine | src/agentactum/policies/engine.py:107-283 | an engine of built-in policies never raises, and allows exactly below HIGH risk when each policy allows |
| PolicyComposition.NothingMissing | src/agentactum/policies/engine.py:183-197 | no permission is reported missing exactly when all required ones are held |
| BuiltInPolicies.UnknownToolDenied | src/agentactum/policies/engine.py:51-58 | without a contract the action is denied at CRITICAL risk, in these words |
| BuiltInPolicies.MismatchDenied | src/agentactum/policies/engine.py:60-67 | a contract that differs in id, name or version denies at its own risk |
| BuiltInPolicies.UnusableAnswerDenies | src/agentactum/policies/engine.py:69-102 | the first policy that raises, answers no decision, or answers for another intent denies the action, each in its own words |
| BuiltInPolicies.FirstDenialDecides | src/agentactum/policies/engine.py:309-340 | with usable answers the first denial decides, with its own reason and the highest risk of all |
| BuiltInPolicies.NoDenialDecides | src/agentactum/policies/engine.py:309-370 | without a denial, approval is required exactly if the highest risk is HIGH or CRITICAL or some answer asks for it; otherwise the action is allowed under all constraints given, in order |
| BuiltInPolicies.DeniedToolIsDenied | src/agentactum/policies/engine.py:122-150 | in any list of policies, one that denies the tool by name, or allows others only, denies the action |
| BuiltInPolicies.ToolListsDecide | src/agentactum/policies/engine.py:122-150 | alone below HIGH risk: denied if in the deny list, denied if there is an allow list without it, allowed otherwise |
| BuiltInPolicies.PermissionsDecide | src/agentactum/policies/engine.py:163-203 | alone below HIGH risk: allowed exactly if the tool requires nothing or the context's "permissions" is a list of texts holding every required one; otherwise denied, naming what is lacking |
| BuiltInPolicies.JoinSpelled | src/agentactum/policies/engine.py:163-203 | the names lacking are joined by ", " |
| BuiltInPolicies.RiskDecides | src/agentactum/policies/engine.py:213-230 | alone below HIGH risk: approval is required exactly if the contract's risk is at least the minimum |
| BuiltInPolicies.HighRiskNeedsApproval | src/agentactum/policies/engine.py:309-370 | at HIGH or CRITICAL risk built-in policies that do not deny require approval |
| BuiltInPolicies.ThresholdDecides | src/agentactum/policies/engine.py:248-283 | alone below HIGH risk, for a tool it covers: a missing or non-numeric field is denied, a number above the threshold requires approval, any other is allowed |
| BuiltInPolicies.WholeThreshold | src/agentactum/policies/engine.py:248-283 | against a whole threshold such as "100.0" integers compare as integers |
| BuiltInPolicies.OwnReasons | src/agentactum/policies/engine.py:122-283 | why a built-in policy's own decision allows or asks for approval |
| BuiltInPolicies.OwnSentences | src/agentactum/policies/engine.py:213-306 | those reasons in words |
| Compensation.CompensationCoordinator.Compensate | src/agentactum/compensation/coordinator.py:63-115 | the summary, the world and the audit trail are those of handling the plans last to first; a run that raises returns no summary and records no completion; what becomes of each plan, `CompensationLaws.NotUndone` and `CompensationLaws.Undone` spell out |
| Compensation.CompensationCoordinator.AttemptCompensation | src/agentactum/compensation/coordinator.py:117-154 | one attempt between its two events, with the world the compensator leaves; it raises, after the first event only, exactly when its result cannot be built |
| CompensationLaws.ReturnsExactly | src/agentactum/compensation/coordinator.py:63-154 | `compensate` returns a summary exactly if every attempt's clock ran forwards and its compensator raised or answered JSON |
| CompensationLaws.RaiseEndsRun | src/agentactum/compensation/coordinator.py:78-146 | a run that raises leaves the world, results and audit trail of the plans from the raising one on; the plans before it are not handled |
| CompensationLaws.OpaqueAnswerEndsRun | src/agentactum/compensation/coordinator.py:136-146 | a compensator that undoes its plan but answers no JSON ends the run with nothing reported |
| CompensationLaws.Undone | src/agentactum/compensation/coordinator.py:99-154 | a succeeded plan of REVERSIBLE, COMPENSATABLE or STAGEABLE effect with a compensator is attempted: its compensator is called once in the world at hand, and the result's fields and the two events tell what it did |
| CompensationLaws.NotUndone | src/agentactum/compensation/coordinator.py:78-102 | any other plan leaves the world alone; it is reported exactly if it succeeded and is IRREVERSIBLE, or of those three effects without a compensator; each case has its own event, a plan that did not succeed none |
| CompensationLaws.RunIsFramed | src/agentactum/compensation/coordinator.py:70-76 | a run for a failed execution is opened by an event, and closed by one that names the status if it returns |
| CompensationLaws.EveryPlanOnce | src/agentactum/compensation/coordinator.py:78-102 | in a run that returns, the results are, in reverse plan order, those of the succeeded plans of REVERSIBLE, COMPENSATABLE or STAGEABLE effect with a compensator, and the uncompensated executions those of the succeeded IRREVERSIBLE ones and of the three effects without one; every plan lands in exactly one of these or is skipped |
| CompensationLaws.ResultsAreBuilt | src/agentactum/compensation/models.py:25-34 | every recorded attempt, also of a run that raised, has a JSON output and passes the result validator |
| CompensationLaws.TrailMatchesSummary | src/agentactum/compensation/coordinator.py:117-154 | attempts, successes, failures and effects left standing are recorded in the audit trail exactly as often as the lists hold them; a run that raised has one more attempt on record |
| CompensationLaws.CompensationComposes | src/agentactum/compensation/coordinator.py:70-115 | compensating P then Q appended returns exactly if Q and then P in the world Q leaves both do, with Q's lists followed by P's and the merged status |
| CompensationLaws.StatusMeans | src/agentactum/compensation/coordinator.py:174-189 | each status holds exactly for its combination of successes and of failures or effects left standing |
| CompensationLaws.RecoveryRestores | src/agentactum/compensation/coordinator.py:81-102 | if compensators undo their own steps and skipped plans changed nothing, COMPENSATED or NOT_REQUIRED means the world is back to before the first plan |
| CompensationLaws.SuffixRestores | src/agentactum/compensation/coordinator.py:81-102 | trouble earlier in the list does not spoil what was undone after it |
| CompensationLaws.SkippedWriteStays | src/agentactum/compensation/coordinator.py:91-96 | an idempotent write that took the world from 0 to 1 is skipped, the status is NOT_REQUIRED, and the world is still 1 |
| CompensationLaws.RaisingCompensatorMayLeaveAnything | src/agentactum/compensation/coordinator.py:121-134 | a compensator that raises may leave any world, with status FAILED |
| Outbox.InMemoryOutboxBackend.StageOperation | src/agentactum/outbox/backend.py:78-102 | stores a staged record and its handler and appends its event, or raises and stores nothing if the arguments are not JSON |
| Outbox.InMemoryOutboxBackend.ReleaseOperation | src/agentactum/outbox/backend.py:104-149 | settles a staged operation through one handler call, raises with the operation still staged if the record cannot be built, returns a settled one unchanged, refuses unknown identifiers; the settled record is spelled out in `OutboxLaws.ReleaseExactly` |
| Outbox.InMemoryOutboxBackend.ReleaseAll | src/agentactum/outbox/backend.py:151-171 | a snapshot, then one release at a time, summarised by status; the first release that raises ends it |
| Outbox.InMemoryOutboxBackend.ListOperations | src/agentactum/outbox/backend.py:173-186 | the operations of a transaction, or all, in insertion order |
| OutboxLaws.ReleaseExactly | src/agentactum/outbox/backend.py:104-149 | a release of a staged operation calls its handler and settles it exactly if the answer is JSON or an exception and the clock has not run backwards since staging; otherwise it raises and the operation is still staged; nothing else changes. The record, field by field: RELEASED with the output and no error if the handler answered, FAILED with "outbox_release_failed" and no output if it raised, at the time read, all else as staged |
| OutboxLaws.StageExactly | src/agentactum/outbox/backend.py:78-102 | staging stores a staged record with the given fields and the clock's time, and the handler, without calling it; it raises exactly if the arguments are not JSON |
| OutboxLaws.ValidExactly | src/agentactum/outbox/models.py:34-55 | what a staged, a released and a failed record must and must not hold |
| OutboxLaws.EventsTell | src/agentactum/outbox/backend.py:188-200 | each event stands under its operation's transaction and names the operation and how its release went |
| OutboxLaws.PendingIs | src/agentactum/outbox/backend.py:153-157 | the snapshot is exactly the transaction's staged operations, once each, in insertion order |
| OutboxLaws.ListedIs | src/agentactum/outbox/backend.py:173-186 | the list for a transaction is its operations, the list for none is every operation, in insertion order |
| OutboxLaws.ReleaseAllAlone | src/agentactum/outbox/backend.py:151-171 | alone, when every pending operation settles, `release_all` calls exactly the pending handlers once each in order, partitions the records in order, leaves none staged and all else unchanged |
| OutboxLaws.ReleaseAllReturnsExactly | src/agentactum/outbox/backend.py:151-171 | alone, `release_all` returns a summary exactly if every pending operation settles |
| OutboxLaws.EachStops | src/agentactum/outbox/backend.py:151-171 | if one pending operation is the first that does not settle, the loop raises there: handlers up to and including its own were called, those before it are settled, everything else is as it was |
| OutboxLaws.OnceSettles | src/agentactum/outbox/backend.py:114-139 | under handlers that answer JSON or raise and a clock that does not run backwards, every staged operation settles |
| OutboxLaws.ReleaseAllAnswers | src/agentactum/outbox/backend.py:114-139 | each pending record becomes, field by field, what its handler answered to its one call |
| OutboxLaws.ReleaseAllSorts | src/agentactum/outbox/backend.py:158-171 | the summary lists as released exactly the pending operations whose handler answered, as failed exactly those whose handler raised, and nothing else |
| OutboxRaces.HandlerOncePerOperation | src/agentactum/outbox/backend.py:104-171 | when handlers answer JSON or raise and the clock does not run backwards, then under every race each handler is called at most once, exactly when its operation is settled, and no `release_all` raises |
| OutboxRaces.AtMostOnceExactly | src/agentactum/outbox/backend.py:104-171 | under a clock that does not run backwards, at-most-once release holds in every schedule exactly if every handler in use answers JSON or raises |
| OutboxRaces.CalledTwice | src/agentactum/outbox/backend.py:104-149 | a handler that answers its n-th call with something that is not JSON is called again by the next release of its operation |
| OutboxRaces.OpaqueIsCalledTwice | src/agentactum/outbox/backend.py:104-149 | so a handler that answers something `json.dumps` refuses is called by each of two releases |
| OutboxRaces.SettledIsFinal | src/agentactum/outbox/backend.py:110-111 | whatever handlers answer, a settled record never changes and its handler is never called again |
| OutboxRaces.SummariesAreTheRecords | src/agentactum/outbox/backend.py:158-171 | every entry of every racing summary is the stored record, listed by its status |
| OutboxRaces.ThroughReportsAll | src/agentactum/outbox/backend.py:151-171 | whatever handlers answer, a `release_all` that is through reports its whole snapshot in order and leaves none of it staged |
| Transactions.TransitionDecides | src/agentactum/transactions/models.py:96-178 | from a valid snapshot a transition succeeds exactly when its pair of statuses is one of the eighteen listed and the caller supplies what the new status, named in the statement, needs; any other pair is refused under the two statuses |
| Transactions.StepsSpelled | src/agentactum/transactions/models.py:13-64 | the table is exactly the eighteen listed pairs of statuses |
| Transactions.ProblemsInOrder | src/agentactum/transactions/models.py:154-178 | which complaint a refused snapshot gets: the first that applies in the validator's order |
| Transactions.SnapshotAfter | src/agentactum/transactions/models.py:112-152 | the new snapshot field by field: the times filled in, the caller's reason, the approvals given or kept |
| Transactions.ValidExactly | src/agentactum/transactions/models.py:154-178 | what a valid snapshot is, for every status |
| Transactions.RunsAreShort | src/agentactum/transactions/models.py:13-64 | every run from a proposed snapshot has at most six steps, each snapshot valid, with identity and intents kept, terminal ones last |
| Transactions.SixStepsHappen | src/agentactum/transactions/models.py:13-64 | six steps are reached |
| Transactions.EveryWalkIsARun | src/agentactum/transactions/models.py:13-64 | every way through the table is taken by some run from every valid snapshot |
| Transactions.CommitHappens | src/agentactum/transactions/models.py:13-64 | COMMITTED is reached from every valid proposed snapshot, with or without an approval step |
| Transactions.OnlyThroughExecution | src/agentactum/transactions/models.py:13-64 | COMMITTED and the compensation statuses come only after VALIDATING, APPROVED and EXECUTING in that order |
| Transactions.NeverRejectedAfterExecuting | src/agentactum/transactions/models.py:13-64 | after EXECUTING never REJECTED, nor approved or validated again |
| Transactions.UpdatesMayGoBack | src/agentactum/transactions/models.py:112-152 | a transition may set an update time before the last one |
| Transactions.UpdatesGrowExactly | src/agentactum/transactions/models.py:112-152 | along a run update times never decrease exactly if no accepted request asks for a time before the update it follows |

## Left out

- SHA-256, UTF-8 encoding, UUID generation and wall clocks: parameters with the assumptions above.
- Field-level validation of the data classes other than of their JSON fields (patterns, stripping, length caps): only JSON fields and the model validators are kept, so messages, names and keys are taken to fit.
- Event identifiers, event times and actor names in the ledger, and policy names and versions in decisions: they decide nothing.
- `BaseException`, process exit and recursion limits: a call that dies between claim and completion leaves its record in progress, which the model does not show.
- Ledger failures inside the outbox and the compensation coordinator, whose appends are not guarded: the ledger does not fail there.
- Handlers that re-enter the outbox through its re-entrant lock.
- Comparison of integers beyond 2^53 with floats bit by bit, and float formatting itself.
- `inspect.signature` binding and `functools.wraps` in the facade: calls start from the bound parameters with their host values. The context factory is the script's context.
- Identity of handlers: a tool's handler is the outcome in the call's script, an outbox handler a function of how many handler calls went before.
- `InMemoryIdempotencyBackend.get_record` and `InMemoryLedger.list_events`, which return what is stored.
- The LangGraph adapter, package exports, approval requests and grants, `ToolRegistry` beyond registration and lookup.
- Design that only the documentation describes: fingerprint conflicts, multi-action commit, INDETERMINATE.
