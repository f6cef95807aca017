/** Atomic claims on idempotency keys: a record map in which each key is claimed once and
    completed once, by the token that claimed it. */
module Idempotency {
  import opened Json

  datatype Status = InProgress | Completed

  datatype Record = Record(
    key: string, ownerToken: string, status: Status, claimedAt: int,
    completedAt: Option<int>, resultReference: Option<string>, result: Value)
  {
    /** The record's model validator. */
    predicate Valid() {
      match status
      case InProgress => completedAt.None? && resultReference.None? && result.Null?
      case Completed => completedAt.Some? && claimedAt <= completedAt.value
    }
  }

  datatype Claim = Claim(record: Record, acquired: bool)

  datatype CompletionError = NoSuchKey | WrongOwner | InvalidRecord

  type Records = map<string, Record>

  /** `claim`: the claim returned for a key, given the existing records. */
  function ClaimOf(records: Records, key: string, token: string, now: int): Claim {
    if key in records then Claim(records[key], false)
    else Claim(Record(key, token, InProgress, now, None, None, Null), true)
  }

  function AfterClaim(records: Records, key: string, token: string, now: int): Records {
    if key in records then records else records[key := ClaimOf(records, key, token, now).record]
  }

  /** `mark_completed`: the record it returns, or the error it raises. */
  function Completion(records: Records, key: string, token: string, reference: string, result: Value, now: int)
    : Result<Record, CompletionError>
  {
    if key !in records then Err(NoSuchKey)
    else
      var r := records[key];
      if r.ownerToken != token then Err(WrongOwner)
      else if r.status.Completed? then Ok(r)
      else
        var done := Record(r.key, r.ownerToken, Completed, r.claimedAt, Some(now), Some(reference), result);
        if done.Valid() then Ok(done) else Err(InvalidRecord)
  }

  function AfterCompletion(records: Records, key: string, token: string, reference: string, result: Value,
                           now: int): Records {
    match Completion(records, key, token, reference, result, now)
    case Ok(r) => records[key := r]
    case Err(_) => records
  }

  class InMemoryIdempotencyBackend {
    var records: Records

    constructor ()
      ensures records == map[]
    {
      records := map[];
    }

    method ClaimKey(key: string, token: string, now: int) returns (claim: Claim)
      modifies this
      ensures claim == ClaimOf(old(records), key, token, now)
      ensures records == AfterClaim(old(records), key, token, now)
    {
      if key in records {
        claim := Claim(records[key], false);
      } else {
        var record := Record(key, token, InProgress, now, None, None, Null);
        records := records[key := record];
        claim := Claim(record, true);
      }
    }

    method MarkCompleted(key: string, token: string, reference: string, result: Value, now: int)
      returns (r: Result<Record, CompletionError>)
      modifies this
      ensures r == Completion(old(records), key, token, reference, result, now)
      ensures records == AfterCompletion(old(records), key, token, reference, result, now)
    {
      if key !in records { return Err(NoSuchKey); }
      var record := records[key];
      if record.ownerToken != token { return Err(WrongOwner); }
      if record.status.Completed? {
        assert records[key := record] == records;
        return Ok(record);
      }
      var completed := Record(record.key, record.ownerToken, Completed, record.claimedAt, Some(now), Some(reference),
                              result);
      if !completed.Valid() { return Err(InvalidRecord); }
      records := records[key := completed];
      r := Ok(completed);
    }
  }

  // ---------- one claim, one completion ----------

  /** A record in progress has neither completion time nor result; a completed one has a completion
      time, not before its claim. */
  lemma ValidExactly(r: Record)
    ensures r.status.InProgress? ==> (r.Valid() <==> r.completedAt.None? && r.resultReference.None? && r.result.Null?)
    ensures r.status.Completed? ==> (r.Valid() <==> r.completedAt.Some? && r.claimedAt <= r.completedAt.value)
  {
  }

  /** A claim is granted exactly if the key has no record. It then stores a record in progress
      under the caller's token and the time of the claim; otherwise it shows the record there is
      and changes nothing. */
  lemma ClaimExactly(records: Records, key: string, token: string, now: int)
    ensures var claim, after := ClaimOf(records, key, token, now), AfterClaim(records, key, token, now);
      var r := claim.record;
      && (claim.acquired <==> key !in records)
      && (!claim.acquired ==> r == records[key] && after == records)
      && (claim.acquired ==>
            && after == records[key := r]
            && r.key == key && r.ownerToken == token && r.status.InProgress? && r.claimedAt == now
            && r.completedAt.None? && r.resultReference.None? && r.result.Null?)
  {
  }

  /** A completion by the owner of a record in progress stores the result, its reference and the
      time, unless that is before the claim; a second one returns what is stored. An unknown key
      and a foreign token are refused, each by its own error, and nothing changes. */
  lemma CompletionExactly(records: Records, key: string, token: string, reference: string, result: Value, now: int)
    ensures var r := Completion(records, key, token, reference, result, now);
      var after := AfterCompletion(records, key, token, reference, result, now);
      && (r == Err(NoSuchKey) <==> key !in records)
      && (r == Err(WrongOwner) <==> key in records && records[key].ownerToken != token)
      && (r == Err(InvalidRecord) <==>
            key in records && records[key].ownerToken == token && records[key].status.InProgress?
            && now < records[key].claimedAt)
      && (r.Err? ==> after == records)
      && (r.Ok? ==> after == records[key := r.value])
      && (r.Ok? && records[key].status.Completed? ==> r.value == records[key])
      && (r.Ok? && records[key].status.InProgress? ==>
            && r.value.key == records[key].key && r.value.ownerToken == token && r.value.status.Completed?
            && r.value.claimedAt == records[key].claimedAt
            && r.value.completedAt == Some(now) && r.value.resultReference == Some(reference)
            && r.value.result == result)
  {
  }

  // ---------- every run of claims and completions ----------

  datatype Op =
    | ClaimOp(key: string, token: string, now: int)
    | CompleteOp(key: string, token: string, reference: string, result: Value, now: int)

  function Apply(records: Records, op: Op): Records {
    match op
    case ClaimOp(k, t, now) => AfterClaim(records, k, t, now)
    case CompleteOp(k, t, r, v, now) => AfterCompletion(records, k, t, r, v, now)
  }

  function ApplyAll(records: Records, ops: seq<Op>): Records
    decreases |ops|
  {
    if ops == [] then records else ApplyAll(Apply(records, ops[0]), ops[1..])
  }

  /** What later records keep of earlier ones: no key is lost or changes hands, and a
      completed record is frozen. */
  predicate Extends(before: Records, after: Records) {
    forall k | k in before ::
      && k in after
      && after[k].ownerToken == before[k].ownerToken && after[k].claimedAt == before[k].claimedAt
      && (before[k].status.Completed? ==> after[k] == before[k])
  }

  predicate WellKept(records: Records) { forall k | k in records :: records[k].key == k && records[k].Valid() }

  lemma ApplyExtends(records: Records, op: Op)
    requires WellKept(records)
    ensures WellKept(Apply(records, op)) && Extends(records, Apply(records, op))
  {
  }

  /** How many claims on a key a run grants. */
  function Grants(records: Records, ops: seq<Op>, key: string): nat
    decreases |ops|
  {
    if ops == [] then 0
    else
      var op := ops[0];
      (if op.ClaimOp? && op.key == key && ClaimOf(records, key, op.token, op.now).acquired then 1 else 0)
      + Grants(Apply(records, ops[0]), ops[1..], key)
  }

  /** In every run a key is granted at most once, exactly once if it is claimed and was free;
      records stay valid and are only ever extended. */
  lemma {:induction false} BackendRun(records: Records, ops: seq<Op>, key: string)
    requires WellKept(records)
    ensures WellKept(ApplyAll(records, ops)) && Extends(records, ApplyAll(records, ops))
    ensures key in records ==> Grants(records, ops, key) == 0
    ensures key !in records ==>
      Grants(records, ops, key) == if exists i | 0 <= i < |ops| :: ops[i].ClaimOp? && ops[i].key == key then 1 else 0
    decreases |ops|
  {
    if ops != [] {
      ApplyExtends(records, ops[0]);
      BackendRun(Apply(records, ops[0]), ops[1..], key);
      ClaimedLater(ops, key);
    }
  }

  lemma ClaimedLater(ops: seq<Op>, key: string)
    requires ops != []
    ensures (exists i :: 0 <= i < |ops| && ops[i].ClaimOp? && ops[i].key == key)
       <==> (ops[0].ClaimOp? && ops[0].key == key)
            || exists i :: 0 <= i < |ops| - 1 && ops[1..][i].ClaimOp? && ops[1..][i].key == key
  {
    forall i | 0 <= i < |ops| - 1 ensures ops[1..][i] == ops[i + 1] {}
    forall i | 1 <= i < |ops| ensures ops[i] == ops[1..][i - 1] {}
  }

  /** Only the claiming token completes a record. */
  lemma ForeignTokenRejected(records: Records, key: string, token: string, reference: string, result: Value, now: int)
    requires WellKept(records)
    ensures AfterCompletion(records, key, token, reference, result, now) != records ==>
      key in records && records[key].ownerToken == token && records[key].status.InProgress?
  {
    if key in records && records[key].ownerToken == token && records[key].status.Completed? {
      assert records[key := records[key]] == records;
    }
  }
}
