/** `json.dumps(v, separators=(",", ":"), sort_keys=True)`: members sorted by key at every
    depth, then printed. The text identifies the value up to member order. */
module CanonicalText {
  import opened Json
  import opened JsonText

  /** Python's order on strings: by code point, a proper prefix first. */
  predicate StrLess(a: string, b: string) {
    b != "" && (a == "" || a[0] < b[0] || (a[0] == b[0] && StrLess(a[1..], b[1..])))
  }

  lemma {:induction false} StrLessTotal(a: string, b: string)
    ensures StrLess(a, b) || StrLess(b, a) || a == b
    ensures !(StrLess(a, b) && StrLess(b, a)) && !StrLess(a, a)
  {
    if a != "" && b != "" {
      StrLessTotal(a[1..], b[1..]);
      assert a == [a[0]] + a[1..] && b == [b[0]] + b[1..];
    }
    if a != "" { StrLessTotal(a[1..], a[1..]); }
  }

  lemma {:induction false} StrLessTransitive(a: string, b: string, c: string)
    requires StrLess(a, b) && StrLess(b, c)
    ensures StrLess(a, c)
  {
    if a != "" && a[0] == b[0] && b[0] == c[0] { StrLessTransitive(a[1..], b[1..], c[1..]); }
  }

  /** The shorter of two texts that agree as far as it goes, or the one with the smaller code point
      where they first differ. */
  lemma {:induction false} StrLessMeans(a: string, b: string)
    ensures StrLess(a, b)
       <==> a < b || exists k :: 0 <= k < |a| && k < |b| && a[..k] == b[..k] && a[k] < b[k]
  {
    if a == "" || b == "" {
    } else if a[0] == b[0] {
      StrLessMeans(a[1..], b[1..]);
      if a[1..] < b[1..] { assert a == [a[0]] + a[1..] && b == [b[0]] + b[1..]; }
      if k :| 0 <= k < |a[1..]| && k < |b[1..]| && a[1..][..k] == b[1..][..k] && a[1..][k] < b[1..][k] {
        assert a[..k + 1] == [a[0]] + a[1..][..k] && b[..k + 1] == [b[0]] + b[1..][..k];
        assert a[k + 1] < b[k + 1];
      }
      if k :| 0 <= k < |a| && k < |b| && a[..k] == b[..k] && a[k] < b[k] {
        assert k > 0 && a[1..][..k - 1] == a[..k][1..] && b[1..][..k - 1] == b[..k][1..];
        assert a[1..][k - 1] < b[1..][k - 1];
      }
    } else {
      if a[0] < b[0] { assert a[..0] == b[..0]; }
      forall k | 0 < k < |a| && k < |b| ensures a[..k] != b[..k] { assert a[..k][0] != b[..k][0]; }
    }
  }

  function Insert(m: Member, ms: seq<Member>): seq<Member> {
    if ms == [] || StrLess(m.key, ms[0].key) then [m] + ms else [ms[0]] + Insert(m, ms[1..])
  }

  function Sort(ms: seq<Member>): seq<Member> {
    if ms == [] then [] else Insert(ms[0], Sort(ms[1..]))
  }

  function Canon(v: Value): Value {
    match v
    case Arr(items) => Arr(seq(|items|, i requires 0 <= i < |items| => Canon(items[i])))
    case Obj(ms) => Obj(Sort(seq(|ms|, i requires 0 <= i < |ms| => Member(ms[i].key, Canon(ms[i].val)))))
    case _ => v
  }

  function CanonMembers(ms: seq<Member>): (r: seq<Member>)
    ensures |r| == |ms|
  {
    seq(|ms|, i requires 0 <= i < |ms| => Member(ms[i].key, Canon(ms[i].val)))
  }

  // ---------- sorting ----------

  ghost predicate Ascending(ms: seq<Member>) {
    forall i, j | 0 <= i < j < |ms| :: StrLess(ms[i].key, ms[j].key)
  }

  lemma {:induction false} InsertSorts(m: Member, ms: seq<Member>)
    requires Ascending(ms) && forall i | 0 <= i < |ms| :: ms[i].key != m.key
    ensures Ascending(Insert(m, ms))
    ensures forall x :: x in Insert(m, ms) <==> x == m || x in ms
    ensures |Insert(m, ms)| == |ms| + 1
  {
    if ms != [] {
      StrLessTotal(m.key, ms[0].key);
      if StrLess(m.key, ms[0].key) {
        forall j | 0 < j < |ms| ensures StrLess(m.key, ms[j].key) {
          StrLessTransitive(m.key, ms[0].key, ms[j].key);
        }
      } else {
        InsertSorts(m, ms[1..]);
        var r := Insert(m, ms[1..]);
        assert ms == [ms[0]] + ms[1..];
        forall j | 0 <= j < |r| ensures StrLess(ms[0].key, r[j].key) {
          assert r[j] in r;
          if r[j] != m {
            var k :| 0 <= k < |ms| - 1 && ms[1..][k] == r[j];
            assert ms[k + 1] == r[j];
          }
        }
      }
    }
  }

  lemma {:induction false} SortSorts(ms: seq<Member>)
    requires Unique(ms)
    ensures Ascending(Sort(ms)) && |Sort(ms)| == |ms|
    ensures forall x :: x in Sort(ms) <==> x in ms
  {
    if ms != [] {
      SortSorts(ms[1..]);
      var r := Sort(ms[1..]);
      forall i | 0 <= i < |r| ensures r[i].key != ms[0].key {
        assert r[i] in ms[1..];
        var k :| 0 <= k < |ms| - 1 && ms[1..][k] == r[i];
        assert ms[k + 1] == r[i];
      }
      InsertSorts(ms[0], r);
      assert ms == [ms[0]] + ms[1..];
    }
  }

  lemma AscendingIsUnique(ms: seq<Member>)
    requires Ascending(ms)
    ensures Unique(ms)
  {
    forall i, j | 0 <= i < j < |ms| ensures ms[i].key != ms[j].key {
      StrLessTotal(ms[i].key, ms[j].key);
    }
  }

  /** A strictly ascending member list is determined by its set of members. */
  lemma {:induction false} AscendingUniquelyOrdered(a: seq<Member>, b: seq<Member>)
    requires Ascending(a) && Ascending(b) && forall x :: x in a <==> x in b
    ensures a == b
  {
    assert a != [] ==> a[0] in a;
    assert b != [] ==> b[0] in b;
    if a != [] {
      var i :| 0 <= i < |b| && b[i] == a[0];
      var j :| 0 <= j < |a| && a[j] == b[0];
      StrLessTotal(a[0].key, b[0].key);
      assert i == 0;
      forall x ensures x in a[1..] <==> x in b[1..] {
        TailMembers(a, x);
        TailMembers(b, x);
      }
      AscendingUniquelyOrdered(a[1..], b[1..]);
      assert a == [a[0]] + a[1..] && b == [b[0]] + b[1..];
    }
  }

  lemma TailMembers(a: seq<Member>, x: Member)
    requires Ascending(a) && a != []
    ensures x in a[1..] <==> x in a && x != a[0]
  {
    assert a == [a[0]] + a[1..];
    if x in a[1..] {
      var k :| 0 <= k < |a| - 1 && a[1..][k] == x;
      StrLessTotal(a[0].key, a[k + 1].key);
    }
  }

  // ---------- canonical form ----------

  lemma CanonObj(ms: seq<Member>)
    requires Unique(ms)
    ensures Canon(Obj(ms)) == Obj(Sort(CanonMembers(ms)))
    ensures Unique(CanonMembers(ms)) && Ascending(Sort(CanonMembers(ms)))
    ensures forall x :: x in Sort(CanonMembers(ms)) <==> x in CanonMembers(ms)
  {
    SortSorts(CanonMembers(ms));
  }

  /** Two values have one canonical form exactly when they differ only in member order. */
  lemma {:induction false} CanonIffSame(v: Value, w: Value)
    requires WellFormed(v) && WellFormed(w)
    ensures Canon(v) == Canon(w) <==> Same(v, w)
    decreases v
  {
    match (v, w) {
      case (Arr(xs), Arr(ys)) =>
        if |xs| == |ys| {
          forall i | 0 <= i < |xs| ensures Canon(xs[i]) == Canon(ys[i]) <==> Same(xs[i], ys[i]) {
            CanonIffSame(xs[i], ys[i]);
          }
          if Same(v, w) {
            assert Canon(v).items == Canon(w).items;
          } else {
            var i :| 0 <= i < |xs| && !Same(xs[i], ys[i]);
            assert Canon(v).items[i] != Canon(w).items[i];
          }
        } else {
          assert |Canon(v).items| == |xs| && |Canon(w).items| == |ys|;
        }
      case (Obj(ms), Obj(ns)) =>
        forall i, j | 0 <= i < |ms| && 0 <= j < |ns|
          ensures Canon(ms[i].val) == Canon(ns[j].val) <==> Same(ms[i].val, ns[j].val)
        {
          CanonIffSame(ms[i].val, ns[j].val);
        }
        if Same(v, w) { SameObjects(ms, ns); }
        if Canon(v) == Canon(w) { EqualCanonObjects(ms, ns); }
      case _ =>
    }
  }

  lemma SameObjects(ms: seq<Member>, ns: seq<Member>)
    requires Unique(ms) && Unique(ns) && Same(Obj(ms), Obj(ns))
    requires forall i, j | 0 <= i < |ms| && 0 <= j < |ns| ::
      Canon(ms[i].val) == Canon(ns[j].val) <==> Same(ms[i].val, ns[j].val)
    ensures Canon(Obj(ms)) == Canon(Obj(ns))
  {
    CanonObj(ms);
    CanonObj(ns);
    SameMembers(ms, ns);
    AscendingUniquelyOrdered(Sort(CanonMembers(ms)), Sort(CanonMembers(ns)));
  }

  lemma SameMembers(ms: seq<Member>, ns: seq<Member>)
    requires Unique(ms) && Unique(ns) && Same(Obj(ms), Obj(ns))
    requires forall i, j | 0 <= i < |ms| && 0 <= j < |ns| ::
      Same(ms[i].val, ns[j].val) ==> Canon(ms[i].val) == Canon(ns[j].val)
    ensures forall x :: x in CanonMembers(ms) <==> x in CanonMembers(ns)
  {
    var a, b := CanonMembers(ms), CanonMembers(ns);
    forall i | 0 <= i < |ms| ensures a[i] in b {
      var g := Get(ns, ms[i].key);
      var j :| 0 <= j < |ns| && ns[j] == Member(ms[i].key, g.value);
      assert b[j] == a[i];
    }
    forall j | 0 <= j < |ns| ensures b[j] in a {
      assert ns[j].key in Keys(ms);
      var i :| 0 <= i < |ms| && ms[i].key == ns[j].key;
      GetAt(ns, j);
      assert a[i] == b[j];
    }
  }

  /** With one canonical form, each member of one object has its partner in the other. */
  lemma CanonPartner(ms: seq<Member>, ns: seq<Member>, i: nat) returns (j: nat)
    requires Unique(ms) && Unique(ns) && Canon(Obj(ms)) == Canon(Obj(ns)) && i < |ms|
    ensures j < |ns| && ns[j].key == ms[i].key && Canon(ns[j].val) == Canon(ms[i].val)
  {
    CanonObj(ms);
    CanonObj(ns);
    var a, b := CanonMembers(ms), CanonMembers(ns);
    assert a[i] in Sort(b);
    j :| 0 <= j < |b| && b[j] == a[i];
  }

  lemma EqualCanonObjects(ms: seq<Member>, ns: seq<Member>)
    requires Unique(ms) && Unique(ns) && Canon(Obj(ms)) == Canon(Obj(ns))
    requires forall i, j | 0 <= i < |ms| && 0 <= j < |ns| ::
      Canon(ms[i].val) == Canon(ns[j].val) <==> Same(ms[i].val, ns[j].val)
    ensures Same(Obj(ms), Obj(ns))
  {
    forall i | 0 <= i < |ms|
      ensures ms[i].key in Keys(ns)
      ensures Get(ns, ms[i].key).Some? && Same(ms[i].val, Get(ns, ms[i].key).value)
    {
      var j := CanonPartner(ms, ns, i);
      GetAt(ns, j);
    }
    forall j | 0 <= j < |ns| ensures ns[j].key in Keys(ms) {
      var i := CanonPartner(ns, ms, j);
    }
  }

  lemma {:induction false} CanonKeeps(v: Value)
    requires WellFormed(v)
    ensures WellFormed(Canon(v)) && Same(v, Canon(v))
    ensures IsJson(Canon(v)) <==> IsJson(v)
  {
    match v
    case Arr(items) =>
      var c := Canon(v).items;
      forall i | 0 <= i < |items|
        ensures c[i] == Canon(items[i]) && WellFormed(c[i]) && Same(items[i], c[i])
        ensures IsJson(c[i]) <==> IsJson(items[i])
      {
        CanonKeeps(items[i]);
      }
    case Obj(ms) =>
      forall i | 0 <= i < |ms|
        ensures WellFormed(Canon(ms[i].val)) && Same(ms[i].val, Canon(ms[i].val))
        ensures IsJson(Canon(ms[i].val)) <==> IsJson(ms[i].val)
      {
        CanonKeeps(ms[i].val);
      }
      CanonKeepsObject(ms);
    case _ =>
  }

  lemma CanonKeepsObject(ms: seq<Member>)
    requires Unique(ms)
    requires forall i | 0 <= i < |ms| ::
      WellFormed(Canon(ms[i].val)) && Same(ms[i].val, Canon(ms[i].val))
      && (IsJson(Canon(ms[i].val)) <==> IsJson(ms[i].val))
    ensures WellFormed(Canon(Obj(ms))) && Same(Obj(ms), Canon(Obj(ms)))
    ensures IsJson(Canon(Obj(ms))) <==> IsJson(Obj(ms))
  {
    CanonObj(ms);
    var s := Sort(CanonMembers(ms));
    SortedKeepsEach(ms, s);
    SortedKeepsSame(ms, s);
  }

  lemma SortedKeepsEach(ms: seq<Member>, s: seq<Member>)
    requires Ascending(s) && forall x :: x in s <==> x in CanonMembers(ms)
    requires forall i | 0 <= i < |ms| ::
      WellFormed(Canon(ms[i].val)) && (IsJson(Canon(ms[i].val)) <==> IsJson(ms[i].val))
    ensures WellFormed(Obj(s)) && (IsJson(Obj(s)) <==> IsJson(Obj(ms)))
  {
    AscendingIsUnique(s);
    forall j | 0 <= j < |s|
      ensures WellFormed(s[j].val) && (IsJson(Obj(ms)) ==> IsJson(s[j].val))
    {
      var i := SortedFrom(ms, s, j);
    }
    forall i | 0 <= i < |ms| ensures IsJson(Obj(s)) ==> IsJson(ms[i].val) {
      assert CanonMembers(ms)[i] in s;
    }
  }

  lemma SortedKeepsSame(ms: seq<Member>, s: seq<Member>)
    requires Ascending(s) && forall x :: x in s <==> x in CanonMembers(ms)
    requires forall i | 0 <= i < |ms| :: Same(ms[i].val, Canon(ms[i].val))
    ensures Same(Obj(ms), Obj(s))
  {
    AscendingIsUnique(s);
    forall i | 0 <= i < |ms|
      ensures ms[i].key in Keys(s) && Get(s, ms[i].key) == Some(Canon(ms[i].val))
    {
      assert CanonMembers(ms)[i] in s;
      SortedLookup(ms, s, i);
    }
    forall j | 0 <= j < |s| ensures s[j].key in Keys(ms) {
      var i := SortedFrom(ms, s, j);
      assert ms[i].key == s[j].key;
    }
  }

  lemma SortedFrom(ms: seq<Member>, s: seq<Member>, j: nat) returns (i: nat)
    requires j < |s| && forall x :: x in s <==> x in CanonMembers(ms)
    ensures i < |ms| && s[j] == Member(ms[i].key, Canon(ms[i].val))
  {
    assert s[j] in CanonMembers(ms);
    i :| 0 <= i < |CanonMembers(ms)| && CanonMembers(ms)[i] == s[j];
  }

  lemma SortedLookup(ms: seq<Member>, s: seq<Member>, i: nat)
    requires Unique(s) && i < |ms| && CanonMembers(ms)[i] in s
    ensures ms[i].key in Keys(s) && Get(s, ms[i].key) == Some(Canon(ms[i].val))
  {
    var j :| 0 <= j < |s| && s[j] == CanonMembers(ms)[i];
    GetAt(s, j);
  }

  // ---------- canonical text ----------

  /** `json.dumps(v, allow_nan=False, separators=(",", ":"), sort_keys=True)` of a value typed
      as JSON, that is, with nothing loose in it. */
  function Dumps(v: Value): Result<string, ()> {
    if IsJson(Canon(v)) then Ok(Print(Canon(v))) else Err(())
  }

  /** `json.loads` of a whole text. */
  function Loads(t: string): Option<Value> {
    match Parse(t)
    case Some((v, "")) => Some(v)
    case _ => None
  }

  /** Writing then reading gives the canonical form, which is the value itself up to member order. */
  lemma LoadsDumps(v: Value)
    requires WellFormed(v) && IsJson(v)
    ensures Dumps(v).Ok? && Loads(Dumps(v).value) == Some(Canon(v)) && Same(v, Canon(v))
  {
    CanonKeeps(v);
    ParsePrint(Canon(v), "");
    assert Print(Canon(v)) + "" == Print(Canon(v));
  }

  /** Canonical texts are equal exactly when the values differ only in member order. */
  lemma DumpsInjective(v: Value, w: Value)
    requires WellFormed(v) && WellFormed(w) && IsJson(v) && IsJson(w)
    ensures Dumps(v) == Dumps(w) <==> Same(v, w)
  {
    LoadsDumps(v);
    LoadsDumps(w);
    CanonIffSame(v, w);
  }
}
