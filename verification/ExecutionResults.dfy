/** Execution results and the JSON form under which the idempotency store keeps them. */
module ExecutionResults {
  import opened Json
  import opened JsonText
  import opened CanonicalText

  datatype FailureDetail = FailureDetail(code: string, message: string)

  /** Identifiers are UUID texts; times count microseconds. */
  datatype ExecutionResult = ExecutionResult(
    executionId: string, transactionId: string, intentId: string, succeeded: bool,
    startedAt: int, completedAt: int, output: Value, error: Option<FailureDetail>,
    postconditionVerified: Option<bool>)
  {
    /** The checks the model validator makes when a result is built. */
    predicate Valid() {
      && startedAt <= completedAt
      && (if succeeded then error.None? && postconditionVerified != Some(false) else error.Some?)
    }

    /** A result that can be stored: valid, with an output that is JSON. */
    ghost predicate Storable() { Valid() && WellFormed(output) && IsJson(output) }
  }

  /** Results that differ at most in the member order of their outputs. */
  ghost predicate SameResult(a: ExecutionResult, b: ExecutionResult) {
    a.(output := Null) == b.(output := Null) && Same(a.output, b.output)
  }

  // ---------- JSON objects with fixed field names ----------

  function Zip(names: seq<string>, values: seq<Value>): seq<Member>
    requires |names| == |values|
  {
    seq(|names|, i requires 0 <= i < |names| => Member(names[i], values[i]))
  }

  /** The values under the given names, when the object has those fields and no others. */
  function Unzip(names: seq<string>, v: Value): Option<seq<Value>> {
    if v.Obj? && |v.members| == |names| && forall i | 0 <= i < |names| :: Get(v.members, names[i]).Some?
    then Some(seq(|names|, i requires 0 <= i < |names| => Get(v.members, names[i]).value))
    else None
  }

  function CanonAll(values: seq<Value>): seq<Value> {
    seq(|values|, i requires 0 <= i < |values| => Canon(values[i]))
  }

  lemma ZipIsJson(names: seq<string>, values: seq<Value>)
    requires |names| == |values| && Distinct(names)
    requires forall i | 0 <= i < |values| :: WellFormed(values[i]) && IsJson(values[i])
    ensures WellFormed(Obj(Zip(names, values))) && IsJson(Obj(Zip(names, values)))
  {
  }

  lemma UnzipCanon(names: seq<string>, values: seq<Value>)
    requires |names| == |values| && Distinct(names)
    ensures Unzip(names, Canon(Obj(Zip(names, values)))) == Some(CanonAll(values))
  {
    var ms := Zip(names, values);
    CanonObj(ms);
    SortSorts(CanonMembers(ms));
    var s := Sort(CanonMembers(ms));
    AscendingIsUnique(s);
    forall i | 0 <= i < |names| ensures Get(s, names[i]) == Some(Canon(values[i])) {
      assert CanonMembers(ms)[i] in s;
      SortedLookup(ms, s, i);
    }
    assert Unzip(names, Obj(s)).value == CanonAll(values);
  }

  // ---------- model_dump(mode="json") ----------

  const ERROR_FIELDS := ["code", "message"]

  const RESULT_FIELDS := ["execution_id", "transaction_id", "intent_id", "succeeded", "started_at",
                          "completed_at", "output", "error", "postcondition_verified"]

  function EncodeError(e: Option<FailureDetail>): Value {
    match e
    case None => Null
    case Some(d) => Obj(Zip(ERROR_FIELDS, [Str(d.code), Str(d.message)]))
  }

  function EncodeFlag(f: Option<bool>): Value { match f case None => Null case Some(b) => Bool(b) }

  function EncodedValues(r: ExecutionResult): seq<Value> {
    [Str(r.executionId), Str(r.transactionId), Str(r.intentId), Bool(r.succeeded), Str(IntText(r.startedAt)),
     Str(IntText(r.completedAt)), r.output, EncodeError(r.error), EncodeFlag(r.postconditionVerified)]
  }

  function Encode(r: ExecutionResult): Value { Obj(Zip(RESULT_FIELDS, EncodedValues(r))) }

  lemma ZipGets(names: seq<string>, values: seq<Value>, i: nat)
    requires |names| == |values| && Distinct(names) && i < |names|
    ensures Get(Zip(names, values), names[i]) == Some(values[i])
  {
    GetAt(Zip(names, values), i);
  }

  lemma FieldGets(r: ExecutionResult, i: nat)
    requires i < 9
    ensures Get(Encode(r).members, RESULT_FIELDS[i]) == Some(EncodedValues(r)[i])
  {
    FieldNamesDiffer();
    ZipGets(RESULT_FIELDS, EncodedValues(r), i);
  }

  /** The stored form is an object of nine fields: the identifiers, the success flag and the
      output under these names; */
  lemma FieldsSpelled(r: ExecutionResult)
    ensures Encode(r).Obj? && |Encode(r).members| == 9
    ensures var ms := Encode(r).members;
      && Get(ms, "execution_id") == Some(Str(r.executionId)) && Get(ms, "transaction_id") == Some(Str(r.transactionId))
      && Get(ms, "intent_id") == Some(Str(r.intentId)) && Get(ms, "succeeded") == Some(Bool(r.succeeded))
      && Get(ms, "output") == Some(r.output)
  {
    FieldGets(r, 0);
    FieldGets(r, 1);
    FieldGets(r, 2);
    FieldGets(r, 3);
    FieldGets(r, 6);
  }

  /** and the times, the error and the postcondition verdict under these. */
  lemma OtherFieldsSpelled(r: ExecutionResult)
    ensures var ms := Encode(r).members;
      && Get(ms, "started_at") == Some(Str(IntText(r.startedAt)))
      && Get(ms, "completed_at") == Some(Str(IntText(r.completedAt)))
      && Get(ms, "error") == Some(EncodeError(r.error))
      && Get(ms, "postcondition_verified")
         == Some(match r.postconditionVerified case None => Null case Some(b) => Bool(b))
  {
    FieldGets(r, 4);
    FieldGets(r, 5);
    FieldGets(r, 7);
    FieldGets(r, 8);
  }

  lemma ErrorSpelled(d: FailureDetail)
    ensures EncodeError(None) == Null
    ensures var ms := EncodeError(Some(d)).members;
      |ms| == 2 && Get(ms, "code") == Some(Str(d.code)) && Get(ms, "message") == Some(Str(d.message))
  {
    FieldNamesDiffer();
    ZipGets(ERROR_FIELDS, [Str(d.code), Str(d.message)], 0);
    ZipGets(ERROR_FIELDS, [Str(d.code), Str(d.message)], 1);
  }

  // ---------- model_validate_json ----------

  function ReadTime(v: Value): Option<int> {
    match v
    case Str(t) => (match NumberToken(t) case Some(Int(n)) => Some(n) case _ => None)
    case _ => None
  }

  function ReadFlag(v: Value): Option<Option<bool>> {
    match v case Null => Some(None) case Bool(b) => Some(Some(b)) case _ => None
  }

  function ReadError(v: Value): Option<Option<FailureDetail>> {
    if v.Null? then Some(None)
    else match Unzip(ERROR_FIELDS, v)
         case Some(xs) => if xs[0].Str? && xs[1].Str? then Some(Some(FailureDetail(xs[0].s, xs[1].s))) else None
         case None => None
  }

  function DecodeValues(xs: seq<Value>): Option<ExecutionResult>
    requires |xs| == 9
  {
    if xs[0].Str? && xs[1].Str? && xs[2].Str? && xs[3].Bool? && ReadTime(xs[4]).Some? && ReadTime(xs[5]).Some?
       && ReadError(xs[7]).Some? && ReadFlag(xs[8]).Some?
    then
      var r := ExecutionResult(xs[0].s, xs[1].s, xs[2].s, xs[3].b, ReadTime(xs[4]).value, ReadTime(xs[5]).value,
                               xs[6], ReadError(xs[7]).value, ReadFlag(xs[8]).value);
      if r.Valid() then Some(r) else None
    else None
  }

  /** Builds a result from exactly its nine fields, running the validator. */
  function Decode(v: Value): Option<ExecutionResult> {
    match Unzip(RESULT_FIELDS, v) case Some(xs) => DecodeValues(xs) case None => None
  }

  /** `_decode_execution_result`: the stored JSON is written as canonical text and read back. */
  function Replay(stored: Value): Option<ExecutionResult> {
    match Dumps(stored)
    case Err(_) => None
    case Ok(text) => (match Loads(text) case None => None case Some(v) => Decode(v))
  }

  // ---------- what can be read back ----------

  /** A result is valid exactly if its times are in order and it failed with an error, or succeeded
      without one and without a failed postcondition. */
  lemma ValidExactly(r: ExecutionResult)
    ensures r.Valid()
       <==> (&& r.startedAt <= r.completedAt
             && (r.succeeded <==> r.error.None?)
             && (r.succeeded && r.postconditionVerified.Some? ==> r.postconditionVerified.value))
  {
  }

  /** Only an object with exactly the nine fields is read back, and only as a valid result. */
  lemma DecodedIs(v: Value)
    requires Decode(v).Some?
    ensures var r := Decode(v).value;
      && r.Valid() && v.Obj? && |v.members| == 9
      && (forall name | name in RESULT_FIELDS :: HasKey(v.members, name))
      && Get(v.members, RESULT_FIELDS[0]) == Some(Str(r.executionId))
      && Get(v.members, RESULT_FIELDS[3]) == Some(Bool(r.succeeded))
      && Get(v.members, RESULT_FIELDS[6]) == Some(r.output)
  {
    forall name | name in RESULT_FIELDS ensures HasKey(v.members, name) {
      var i :| 0 <= i < 9 && RESULT_FIELDS[i] == name;
      assert Get(v.members, RESULT_FIELDS[i]).Some?;
    }
  }

  // ---------- round trip ----------

  lemma FieldNamesDiffer()
    ensures Distinct(RESULT_FIELDS) && Distinct(ERROR_FIELDS)
  {
    var n := RESULT_FIELDS;
    assert n[0][1] == 'x' && n[7][1] == 'r' && n[3][1] == 'u' && n[4][1] == 't';
    assert n[0][0] == n[7][0] == 'e' && n[3][0] == n[4][0] == 's';
    assert n[1][0] == 't' && n[2][0] == 'i' && n[5][0] == 'c' && n[6][0] == 'o' && n[8][0] == 'p';
    assert ERROR_FIELDS[0][0] == 'c' && ERROR_FIELDS[1][0] == 'm';
  }

  lemma TimeReads(t: int)
    ensures ReadTime(Str(IntText(t))) == Some(t)
  {
    if t < 0 {
      var s := IntText(t);
      assert s[0] == '-' && s[1..] == NatText(-t);
      NatTextValue(-t);
      assert !AllDigits(s) by { assert !IsDigit(s[0]); }
    } else {
      NatTextValue(t);
    }
  }

  lemma ErrorReads(e: Option<FailureDetail>)
    ensures ReadError(Canon(EncodeError(e))) == Some(e)
    ensures WellFormed(EncodeError(e)) && IsJson(EncodeError(e))
  {
    FieldNamesDiffer();
    match e {
      case None =>
      case Some(d) =>
        var xs := [Str(d.code), Str(d.message)];
        UnzipCanon(ERROR_FIELDS, xs);
        ZipIsJson(ERROR_FIELDS, xs);
        assert CanonAll(xs) == xs;
    }
  }

  lemma EncodedIsJson(r: ExecutionResult)
    requires r.Storable()
    ensures WellFormed(Encode(r)) && IsJson(Encode(r))
  {
    FieldNamesDiffer();
    EncodedValuesAreJson(r);
    ZipIsJson(RESULT_FIELDS, EncodedValues(r));
  }

  lemma EncodedValuesAreJson(r: ExecutionResult)
    requires r.Storable()
    ensures forall i | 0 <= i < 9 :: WellFormed(EncodedValues(r)[i]) && IsJson(EncodedValues(r)[i])
  {
    forall i | 0 <= i < 9 ensures WellFormed(EncodedValues(r)[i]) && IsJson(EncodedValues(r)[i]) {
      if i == 7 { ErrorReads(r.error); }
    }
  }

  lemma DecodeCanon(xs: seq<Value>, r: ExecutionResult)
    requires r.Valid() && |xs| == 9
    requires xs[0] == Str(r.executionId) && xs[1] == Str(r.transactionId) && xs[2] == Str(r.intentId)
    requires xs[3] == Bool(r.succeeded)
    requires ReadTime(xs[4]) == Some(r.startedAt) && ReadTime(xs[5]) == Some(r.completedAt)
    requires ReadError(xs[7]) == Some(r.error) && ReadFlag(xs[8]) == Some(r.postconditionVerified)
    ensures DecodeValues(xs) == Some(r.(output := xs[6]))
  {
  }

  lemma CanonEncoded(r: ExecutionResult, xs: seq<Value>)
    requires xs == CanonAll(EncodedValues(r))
    ensures |xs| == 9
    ensures xs[0] == Str(r.executionId) && xs[1] == Str(r.transactionId) && xs[2] == Str(r.intentId)
    ensures xs[3] == Bool(r.succeeded) && xs[4] == Str(IntText(r.startedAt)) && xs[5] == Str(IntText(r.completedAt))
    ensures xs[6] == Canon(r.output) && xs[7] == Canon(EncodeError(r.error))
    ensures xs[8] == EncodeFlag(r.postconditionVerified)
  {
    var vs := EncodedValues(r);
    assert forall i | 0 <= i < 9 :: xs[i] == Canon(vs[i]);
  }

  lemma DecodeReads(r: ExecutionResult)
    requires r.Valid()
    ensures DecodeValues(CanonAll(EncodedValues(r))) == Some(r.(output := Canon(r.output)))
  {
    var xs := CanonAll(EncodedValues(r));
    CanonEncoded(r, xs);
    TimeReads(r.startedAt);
    TimeReads(r.completedAt);
    ErrorReads(r.error);
    FlagReads(r.postconditionVerified);
    DecodeCanon(xs, r);
  }

  lemma FlagReads(f: Option<bool>)
    ensures ReadFlag(EncodeFlag(f)) == Some(f)
  {
  }

  /** A stored result replays as itself, with the members of its output sorted: the output
      is the same JSON, and every other field, failures included, is identical. */
  lemma ReplayEncode(r: ExecutionResult)
    requires r.Storable()
    ensures Replay(Encode(r)) == Some(r.(output := Canon(r.output)))
    ensures SameResult(r, r.(output := Canon(r.output)))
    ensures r.(output := Canon(r.output)).Storable()
  {
    EncodedIsJson(r);
    LoadsDumps(Encode(r));
    FieldNamesDiffer();
    UnzipCanon(RESULT_FIELDS, EncodedValues(r));
    DecodeReads(r);
    CanonKeeps(r.output);
  }
}
