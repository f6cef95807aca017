/** Turning bound Python arguments into JSON values. */
module HostValues {
  import opened Json
  import opened JsonText

  datatype HostKey =
    | TextKey(s: string)
    | IntKey(n: int)
    | BoolKey(b: bool)
    | FloatKey(numeral: FloatText)
    | NoneKey
    | OtherKey(text: string)
  {
    /** `str(key)`. */
    function Text(): string {
      match this
      case TextKey(s) => s
      case IntKey(n) => IntText(n)
      case BoolKey(b) => if b then "True" else "False"
      case FloatKey(numeral) => numeral
      case NoneKey => "None"
      case OtherKey(text) => text
    }
  }

  datatype HostValue =
    | HostNone
    | HostBool(b: bool)
    | HostInt(n: int)
    | HostFloat(numeral: FloatText)
    | HostNonFinite(kind: Special)
    | HostText(s: string)
    | HostList(items: seq<HostValue>)
    | HostDict(entries: seq<HostEntry>)
    | HostObject

  datatype HostEntry = HostEntry(key: HostKey, val: HostValue)

  /** Binds a key in a dictionary: a key already bound keeps its place and takes the new value. */
  function Bind(ms: seq<Member>, k: string, v: Value): seq<Member> {
    if ms == [] then [Member(k, v)]
    else if ms[0].key == k then [Member(k, v)] + ms[1..]
    else [ms[0]] + Bind(ms[1..], k, v)
  }

  /** `_as_json_value`; `None` when it raises. */
  function AsJson(v: HostValue): Option<Value>
    decreases v, 1, 0
  {
    match v
    case HostNone => Some(Null)
    case HostBool(b) => Some(Bool(b))
    case HostInt(n) => Some(Int(n))
    case HostFloat(t) => Some(Float(t))
    case HostNonFinite(kind) => Some(NonFinite(kind))
    case HostText(s) => Some(Str(s))
    case HostList(items) =>
      if forall i | 0 <= i < |items| :: AsJson(items[i]).Some?
      then Some(Arr(seq(|items|, i requires 0 <= i < |items| && AsJson(items[i]).Some? => AsJson(items[i]).value)))
      else None
    case HostDict(entries) => (match Members(v, |entries|) case Some(ms) => Some(Obj(ms)) case None => None)
    case HostObject => None
  }

  /** The members bound by the first n entries of a dictionary. */
  function Members(v: HostValue, n: nat): Option<seq<Member>>
    requires v.HostDict? && n <= |v.entries|
    decreases v, 0, n
  {
    if n == 0 then Some([])
    else
      match (Members(v, n - 1), AsJson(v.entries[n - 1].val))
      case (Some(ms), Some(x)) => Some(Bind(ms, v.entries[n - 1].key.Text(), x))
      case _ => None
  }

  /** What dictionary keys become, kind by kind. */
  lemma KeyTexts(s: string, n: int, t: FloatText)
    ensures TextKey(s).Text() == OtherKey(s).Text() == s && FloatKey(t).Text() == t
    ensures BoolKey(true).Text() == "True" && BoolKey(false).Text() == "False" && NoneKey.Text() == "None"
    ensures NumberToken(IntKey(n).Text()) == Some(Int(n))
  {
    NatTextValue(if n < 0 then -n else n);
    if n < 0 {
      var text := IntText(n);
      assert text[0] == '-' && text[1..] == NatText(-n);
      assert !AllDigits(text) by { assert !IsDigit(text[0]); }
    }
  }

  // ---------- what the conversion gives ----------

  /** The value is made of JSON-compatible parts only. */
  predicate Convertible(v: HostValue) {
    match v
    case HostList(items) => forall i | 0 <= i < |items| :: Convertible(items[i])
    case HostDict(entries) => forall i | 0 <= i < |entries| :: Convertible(entries[i].val)
    case HostObject => false
    case _ => true
  }

  lemma {:induction false} BindKeys(ms: seq<Member>, k: string, v: Value)
    requires Unique(ms)
    ensures Unique(Bind(ms, k, v)) && Keys(Bind(ms, k, v)) == Keys(ms) + {k}
  {
    var r := Bind(ms, k, v);
    if ms == [] {
      KeysCons(r);
      assert Keys(r[1..]) == {} && Keys(ms) == {};
    } else {
      var rest := ms[1..];
      KeysCons(ms);
      KeysCons(r);
      assert ms[0].key !in Keys(rest);
      if ms[0].key == k {
        assert r[1..] == rest;
      } else {
        BindKeys(rest, k, v);
        assert r[1..] == Bind(rest, k, v);
      }
      UniqueCons(r);
    }
  }

  /** A key bound again keeps its place, and a new one comes last. */
  lemma {:induction false} BindPlaces(ms: seq<Member>, k: string, v: Value)
    ensures HasKey(ms, k) ==>
      |Bind(ms, k, v)| == |ms| && forall i | 0 <= i < |ms| :: Bind(ms, k, v)[i].key == ms[i].key
    ensures !HasKey(ms, k) ==> Bind(ms, k, v) == ms + [Member(k, v)]
  {
    if HasKey(ms, k) {
      if ms[0].key != k {
        var i :| 0 <= i < |ms| && ms[i].key == k;
        assert ms[1..][i - 1].key == k;
        BindPlaces(ms[1..], k, v);
      }
    } else {
      BindAppends(ms, k, v);
    }
  }

  lemma {:induction false} BindGets(ms: seq<Member>, k: string, v: Value, j: string)
    ensures Get(Bind(ms, k, v), j) == if j == k then Some(v) else Get(ms, j)
  {
    if ms != [] {
      var r := Bind(ms, k, v);
      if ms[0].key == k {
        assert r[1..] == ms[1..];
      } else {
        BindGets(ms[1..], k, v, j);
        assert r[1..] == Bind(ms[1..], k, v);
      }
    }
  }

  lemma {:induction false} BindValues(ms: seq<Member>, k: string, v: Value)
    requires WellFormed(v) && forall i | 0 <= i < |ms| :: WellFormed(ms[i].val)
    ensures forall i | 0 <= i < |Bind(ms, k, v)| :: WellFormed(Bind(ms, k, v)[i].val)
  {
    if ms != [] && ms[0].key != k { BindValues(ms[1..], k, v); }
  }

  lemma KeysCons(ms: seq<Member>)
    requires ms != []
    ensures Keys(ms) == {ms[0].key} + Keys(ms[1..])
  {
    forall k | k in Keys(ms) ensures k in {ms[0].key} + Keys(ms[1..]) {
      var i :| 0 <= i < |ms| && ms[i].key == k;
      if i > 0 { assert ms[1..][i - 1].key == k; }
    }
    forall k | k in Keys(ms[1..]) ensures k in Keys(ms) {
      var i :| 0 <= i < |ms| - 1 && ms[1..][i].key == k;
      assert ms[i + 1].key == k;
    }
  }

  lemma UniqueCons(ms: seq<Member>)
    requires ms != [] && Unique(ms[1..]) && ms[0].key !in Keys(ms[1..])
    ensures Unique(ms)
  {
    forall i, j | 0 <= i < j < |ms| ensures ms[i].key != ms[j].key {
      assert ms[1..][j - 1] == ms[j];
      if i > 0 { assert ms[1..][i - 1] == ms[i]; }
    }
  }

  lemma BindStep(v: HostValue, n: nat)
    requires v.HostDict? && 0 < n <= |v.entries|
    ensures Members(v, n).Some? <==> Members(v, n - 1).Some? && AsJson(v.entries[n - 1].val).Some?
    ensures Members(v, n).Some? ==>
      var entry := v.entries[n - 1];
      Members(v, n).value == Bind(Members(v, n - 1).value, entry.key.Text(), AsJson(entry.val).value)
  {
  }

  lemma BindWellFormed(ms: seq<Member>, k: string, v: Value)
    requires WellFormed(Obj(ms)) && WellFormed(v)
    ensures WellFormed(Obj(Bind(ms, k, v)))
  {
    BindKeys(ms, k, v);
    BindValues(ms, k, v);
  }

  predicate AllConvertible(entries: seq<HostEntry>, n: nat)
    requires n <= |entries|
  {
    forall i | 0 <= i < n :: Convertible(entries[i].val)
  }

  lemma {:induction false} AsJsonConverts(v: HostValue)
    ensures AsJson(v).Some? <==> Convertible(v)
    decreases v, 1, 0
  {
    match v
    case HostList(items) => forall i | 0 <= i < |items| { AsJsonConverts(items[i]); }
    case HostDict(entries) => MembersConvert(v, |entries|);
    case _ =>
  }

  lemma {:induction false} MembersConvert(v: HostValue, n: nat)
    requires v.HostDict? && n <= |v.entries|
    ensures Members(v, n).Some? <==> AllConvertible(v.entries, n)
    decreases v, 0, n
  {
    if n > 0 {
      MembersConvert(v, n - 1);
      AsJsonConverts(v.entries[n - 1].val);
      BindStep(v, n);
    }
  }

  lemma {:induction false} AsJsonWellFormed(v: HostValue)
    requires AsJson(v).Some?
    ensures WellFormed(AsJson(v).value)
    decreases v, 1, 0
  {
    match v
    case HostList(items) => forall i | 0 <= i < |items| { AsJsonWellFormed(items[i]); }
    case HostDict(entries) => MembersWellFormed(v, |entries|);
    case _ =>
  }

  lemma {:induction false} MembersWellFormed(v: HostValue, n: nat)
    requires v.HostDict? && n <= |v.entries| && Members(v, n).Some?
    ensures WellFormed(Obj(Members(v, n).value))
    decreases v, 0, n
  {
    if n > 0 {
      BindStep(v, n);
      MembersWellFormed(v, n - 1);
      AsJsonWellFormed(v.entries[n - 1].val);
      BindWellFormed(Members(v, n - 1).value, v.entries[n - 1].key.Text(), AsJson(v.entries[n - 1].val).value);
    }
  }

  /** Conversion succeeds exactly on JSON-compatible values, and what it gives has distinct
      keys at every depth even where different host keys have one text. */
  lemma AsJsonDecides(v: HostValue)
    ensures AsJson(v).Some? <==> Convertible(v)
    ensures AsJson(v).Some? ==> WellFormed(AsJson(v).value)
  {
    AsJsonConverts(v);
    if AsJson(v).Some? { AsJsonWellFormed(v); }
  }

  /** Each step either binds its own value or keeps what was there: the last to bind wins. */
  lemma {:induction false} LastBinderWins<T>(binds: seq<bool>, vals: seq<T>, gets: seq<T>, n: nat, i: nat)
    requires |binds| == |vals| && |gets| == |binds| + 1 && i < n <= |binds|
    requires forall m | 0 < m <= n :: gets[m] == if binds[m - 1] then vals[m - 1] else gets[m - 1]
    requires binds[i] && forall j | i < j < n :: !binds[j]
    ensures gets[n] == vals[i]
  {
    if i < n - 1 { LastBinderWins(binds, vals, gets, n - 1, i); }
  }

  lemma {:induction false} EarlierMembers(v: HostValue, n: nat, m: nat)
    requires v.HostDict? && m <= n <= |v.entries| && Members(v, n).Some?
    ensures Members(v, m).Some?
    decreases n - m
  {
    if m < n {
      EarlierMembers(v, n, m + 1);
      BindStep(v, m + 1);
    }
  }

  function Lookup(v: HostValue, m: nat, k: string): Option<Value>
    requires v.HostDict? && m <= |v.entries|
  {
    match Members(v, m) case Some(ms) => Get(ms, k) case None => None
  }

  lemma LookupStep(v: HostValue, m: nat, k: string)
    requires v.HostDict? && 0 < m <= |v.entries| && AsJson(v).Some?
    ensures Lookup(v, m, k)
         == if v.entries[m - 1].key.Text() == k then AsJson(v.entries[m - 1].val) else Lookup(v, m - 1, k)
  {
    EarlierMembers(v, |v.entries|, m);
    StepGets(v, m, k);
  }

  /** The last entry whose key has the text wins. */
  lemma LastEntryWins(v: HostValue, i: nat)
    requires v.HostDict? && i < |v.entries| && AsJson(v).Some?
    requires forall j | i < j < |v.entries| :: v.entries[j].key.Text() != v.entries[i].key.Text()
    ensures Get(AsJson(v).value.members, v.entries[i].key.Text()) == AsJson(v.entries[i].val)
  {
    var n, k := |v.entries|, v.entries[i].key.Text();
    var binds := seq(n, m requires 0 <= m < n => v.entries[m].key.Text() == k);
    var vals := seq(n, m requires 0 <= m < n => AsJson(v.entries[m].val));
    var gets := seq(n + 1, m requires 0 <= m <= n => Lookup(v, m, k));
    forall m | 0 < m <= n ensures gets[m] == if binds[m - 1] then vals[m - 1] else gets[m - 1] {
      LookupStep(v, m, k);
    }
    LastBinderWins(binds, vals, gets, n, i);
  }

  lemma StepGets(v: HostValue, n: nat, k: string)
    requires v.HostDict? && 0 < n <= |v.entries| && Members(v, n).Some?
    ensures Members(v, n - 1).Some?
    ensures Get(Members(v, n).value, k)
         == if k == v.entries[n - 1].key.Text() then AsJson(v.entries[n - 1].val) else Get(Members(v, n - 1).value, k)
  {
    BindStep(v, n);
    BindGets(Members(v, n - 1).value, v.entries[n - 1].key.Text(), AsJson(v.entries[n - 1].val).value, k);
  }

  /** The values differ at most in the kinds of their dictionary keys, not in the keys' texts. */
  predicate TextTwins(v: HostValue, w: HostValue) {
    match (v, w)
    case (HostList(xs), HostList(ys)) => |xs| == |ys| && forall i | 0 <= i < |xs| :: TextTwins(xs[i], ys[i])
    case (HostDict(a), HostDict(b)) =>
      |a| == |b| && forall i | 0 <= i < |a| :: a[i].key.Text() == b[i].key.Text() && TextTwins(a[i].val, b[i].val)
    case _ => v == w
  }

  /** Keys count only by their texts: twins become one JSON value. */
  lemma {:induction false} TwinsConvertAlike(v: HostValue, w: HostValue)
    requires TextTwins(v, w)
    ensures AsJson(v) == AsJson(w)
    decreases v, 1, 0
  {
    match (v, w)
    case (HostList(xs), HostList(ys)) =>
      forall i | 0 <= i < |xs| ensures AsJson(xs[i]) == AsJson(ys[i]) { TwinsConvertAlike(xs[i], ys[i]); }
      ListsConvertAlike(xs, ys);
    case (HostDict(a), HostDict(b)) => MembersConvertAlike(v, w, |a|);
    case _ =>
  }

  lemma ListsConvertAlike(xs: seq<HostValue>, ys: seq<HostValue>)
    requires |xs| == |ys| && forall i | 0 <= i < |xs| :: AsJson(xs[i]) == AsJson(ys[i])
    ensures AsJson(HostList(xs)) == AsJson(HostList(ys))
  {
    if AsJson(HostList(xs)).Some? {
      assert AsJson(HostList(xs)).value.items == AsJson(HostList(ys)).value.items;
    }
  }

  lemma {:induction false} MembersConvertAlike(v: HostValue, w: HostValue, n: nat)
    requires v.HostDict? && w.HostDict? && TextTwins(v, w) && n <= |v.entries|
    ensures Members(v, n) == Members(w, n)
    decreases v, 0, n
  {
    if n > 0 {
      MembersConvertAlike(v, w, n - 1);
      TwinsConvertAlike(v.entries[n - 1].val, w.entries[n - 1].val);
    }
  }

  /** What conversion gives is typed as JSON, so nothing in it is loose. */
  lemma {:induction false} NothingLoose(v: HostValue)
    requires AsJson(v).Some?
    ensures !HasLoose(AsJson(v).value)
    decreases v, 1, 0
  {
    match v
    case HostList(items) => forall i | 0 <= i < |items| { NothingLoose(items[i]); }
    case HostDict(entries) => MembersNotLoose(v, |entries|);
    case _ =>
  }

  lemma {:induction false} MembersNotLoose(v: HostValue, n: nat)
    requires v.HostDict? && n <= |v.entries| && Members(v, n).Some?
    ensures !HasLoose(Obj(Members(v, n).value))
    decreases v, 0, n
  {
    if n > 0 {
      BindStep(v, n);
      MembersNotLoose(v, n - 1);
      NothingLoose(v.entries[n - 1].val);
      BindNotLoose(Members(v, n - 1).value, v.entries[n - 1].key.Text(), AsJson(v.entries[n - 1].val).value);
    }
  }

  lemma {:induction false} BindNotLoose(ms: seq<Member>, k: string, v: Value)
    requires !HasLoose(Obj(ms)) && !HasLoose(v)
    ensures !HasLoose(Obj(Bind(ms, k, v)))
  {
    if ms != [] && ms[0].key != k {
      assert !HasLoose(Obj(ms[1..])) by {
        forall i | 0 <= i < |ms| - 1 ensures !HasLoose(ms[1..][i].val) { assert ms[1..][i] == ms[i + 1]; }
      }
      BindNotLoose(ms[1..], k, v);
    }
  }

  // ---------- bound arguments ----------

  datatype Binding = Binding(name: string, val: HostValue)

  /** The arguments the first n bindings give, or the name of the first that does not convert. */
  function ArgumentsOf(bound: seq<Binding>, n: nat): Result<seq<Member>, string>
    requires n <= |bound|
  {
    if n == 0 then Ok([])
    else
      match ArgumentsOf(bound, n - 1)
      case Err(name) => Err(name)
      case Ok(ms) =>
        (match AsJson(bound[n - 1].val)
         case None => Err(bound[n - 1].name)
         case Some(v) => Ok(Bind(ms, bound[n - 1].name, v)))
  }

  /** `_bind_json_arguments`, from the bound parameters on. */
  method BindArguments(bound: seq<Binding>) returns (r: Result<seq<Member>, string>)
    ensures r == ArgumentsOf(bound, |bound|)
  {
    var ms: seq<Member> := [];
    for i := 0 to |bound|
      invariant ArgumentsOf(bound, i) == Ok(ms)
    {
      var v := AsJson(bound[i].val);
      if v.None? {
        ErrorStays(bound, i + 1, |bound|);
        return Err(bound[i].name);
      }
      ms := Bind(ms, bound[i].name, v.value);
    }
    r := Ok(ms);
  }

  lemma {:induction false} ErrorStays(bound: seq<Binding>, n: nat, m: nat)
    requires n <= m <= |bound| && ArgumentsOf(bound, n).Err?
    ensures ArgumentsOf(bound, m) == ArgumentsOf(bound, n)
    decreases m
  {
    if n < m { ErrorStays(bound, n, m - 1); }
  }

  /** The arguments convert exactly if each one does; then they have distinct names and nothing
      loose in them. Otherwise the error names the first that does not convert. */
  lemma {:induction false} ArgumentsDecide(bound: seq<Binding>, n: nat)
    requires n <= |bound|
    ensures ArgumentsOf(bound, n).Ok? <==> forall i | 0 <= i < n :: Convertible(bound[i].val)
    ensures ArgumentsOf(bound, n).Ok? ==>
      WellFormed(Obj(ArgumentsOf(bound, n).value)) && !HasLoose(Obj(ArgumentsOf(bound, n).value))
    ensures ArgumentsOf(bound, n).Err? ==>
      exists i :: 0 <= i < n && bound[i].name == ArgumentsOf(bound, n).error && !Convertible(bound[i].val)
                  && forall j | 0 <= j < i :: Convertible(bound[j].val)
  {
    if n > 0 {
      ArgumentsDecide(bound, n - 1);
      AsJsonDecides(bound[n - 1].val);
      if ArgumentsOf(bound, n).Ok? {
        var last := bound[n - 1];
        BindArgument(ArgumentsOf(bound, n - 1).value, last.name, AsJson(last.val).value, last.val);
      }
    }
  }

  /** Arguments of distinct names are listed in the order they were bound, each under its name
      with its converted value. */
  lemma {:induction false} ArgumentsAre(bound: seq<Binding>, n: nat)
    requires n <= |bound| && ArgumentsOf(bound, n).Ok?
    requires forall i, j | 0 <= i < j < |bound| :: bound[i].name != bound[j].name
    ensures var ms := ArgumentsOf(bound, n).value;
      |ms| == n && forall i | 0 <= i < n :: ms[i].key == bound[i].name && Some(ms[i].val) == AsJson(bound[i].val)
  {
    if n > 0 {
      ArgumentsAre(bound, n - 1);
      BindAppends(ArgumentsOf(bound, n - 1).value, bound[n - 1].name, AsJson(bound[n - 1].val).value);
    }
  }

  lemma BindArgument(ms: seq<Member>, name: string, v: Value, host: HostValue)
    requires WellFormed(Obj(ms)) && !HasLoose(Obj(ms)) && AsJson(host) == Some(v)
    ensures WellFormed(Obj(Bind(ms, name, v))) && !HasLoose(Obj(Bind(ms, name, v)))
  {
    AsJsonDecides(host);
    NothingLoose(host);
    BindWellFormed(ms, name, v);
    BindNotLoose(ms, name, v);
  }

  predicate TwinBindings(a: seq<Binding>, b: seq<Binding>) {
    |a| == |b| && forall i | 0 <= i < |a| :: a[i].name == b[i].name && TextTwins(a[i].val, b[i].val)
  }

  /** Bindings that differ only in the kinds of dictionary keys give the same arguments. */
  lemma {:induction false} TwinArguments(a: seq<Binding>, b: seq<Binding>, n: nat)
    requires TwinBindings(a, b) && n <= |a|
    ensures ArgumentsOf(a, n) == ArgumentsOf(b, n)
  {
    if n > 0 {
      TwinArguments(a, b, n - 1);
      TwinsConvertAlike(a[n - 1].val, b[n - 1].val);
    }
  }

  // ---------- JSON passes through unchanged ----------

  function FromJson(v: Value): HostValue {
    match v
    case Null => HostNone
    case Bool(b) => HostBool(b)
    case Int(n) => HostInt(n)
    case Float(t) => HostFloat(t)
    case NonFinite(kind) => HostNonFinite(kind)
    case Str(s) => HostText(s)
    case Arr(items) => HostList(seq(|items|, i requires 0 <= i < |items| => FromJson(items[i])))
    case Obj(ms) => HostDict(seq(|ms|, i requires 0 <= i < |ms| => HostEntry(TextKey(ms[i].key), FromJson(ms[i].val))))
    case _ => HostObject
  }

  lemma {:induction false} BindAppends(ms: seq<Member>, k: string, v: Value)
    requires !HasKey(ms, k)
    ensures Bind(ms, k, v) == ms + [Member(k, v)]
  {
    if ms != [] {
      assert forall i | 0 <= i < |ms| - 1 :: ms[1..][i] == ms[i + 1];
      BindAppends(ms[1..], k, v);
    }
  }

  /** Every JSON value can be converted. */
  lemma {:induction false} JsonConverts(v: Value)
    requires IsJson(v)
    ensures Convertible(FromJson(v))
  {
    match v
    case Arr(items) => forall i | 0 <= i < |items| { JsonConverts(items[i]); }
    case Obj(ms) => forall i | 0 <= i < |ms| { JsonConverts(ms[i].val); }
    case _ =>
  }

  /** A JSON value converts to itself, member order included. */
  lemma JsonIsKept(v: Value)
    requires WellFormed(v) && IsJson(v)
    ensures AsJson(FromJson(v)) == Some(v)
  {
    JsonConverts(v);
    ConvertedIsKept(v);
  }

  /** So does every value that can be converted, non-finite numbers included. */
  lemma {:induction false} ConvertedIsKept(v: Value)
    requires WellFormed(v)
    ensures Convertible(FromJson(v)) ==> AsJson(FromJson(v)) == Some(v)
    decreases v, 1, 0
  {
    match v
    case Arr(items) =>
      var host := FromJson(v);
      if Convertible(host) {
        forall i | 0 <= i < |items| ensures AsJson(host.items[i]) == Some(items[i]) {
          assert Convertible(host.items[i]);
          ConvertedIsKept(items[i]);
        }
        assert AsJson(host).Some? && AsJson(host).value.items == items;
      }
    case Obj(ms) =>
      if Convertible(FromJson(v)) {
        MembersAreKept(v, |ms|);
        assert ms[..|ms|] == ms;
      }
    case _ =>
  }

  lemma {:induction false} MembersAreKept(v: Value, n: nat)
    requires WellFormed(v) && v.Obj? && Convertible(FromJson(v)) && n <= |v.members|
    ensures Members(FromJson(v), n) == Some(v.members[..n])
    decreases v, 0, n
  {
    if n == 0 {
      assert v.members[..0] == [];
    } else {
      MembersAreKept(v, n - 1);
      ConvertedIsKept(v.members[n - 1].val);
      OneMoreKept(v, n);
    }
  }

  lemma OneMoreKept(v: Value, n: nat)
    requires WellFormed(v) && v.Obj? && Convertible(FromJson(v)) && 0 < n <= |v.members|
    requires Members(FromJson(v), n - 1) == Some(v.members[..n - 1])
    requires Convertible(FromJson(v.members[n - 1].val)) ==>
      AsJson(FromJson(v.members[n - 1].val)) == Some(v.members[n - 1].val)
    ensures Members(FromJson(v), n) == Some(v.members[..n])
  {
    var m := v.members[n - 1];
    EntryOf(v, n - 1);
    BindStep(FromJson(v), n);
    BindAppends(v.members[..n - 1], m.key, m.val);
    assert v.members[..n] == v.members[..n - 1] + [Member(m.key, m.val)];
  }

  lemma EntryOf(v: Value, i: nat)
    requires v.Obj? && i < |v.members| && Convertible(FromJson(v))
    ensures FromJson(v).entries[i] == HostEntry(TextKey(v.members[i].key), FromJson(v.members[i].val))
    ensures Convertible(FromJson(v.members[i].val))
  {
    assert Convertible(FromJson(v).entries[i].val);
  }
}
