/** JSON values as the Python code sees them: dictionaries keep insertion order,
    integers and floats are different kinds of number, and a handler may return
    something that is not JSON at all. */
module Json {
  datatype Option<+T> = None | Some(value: T)

  datatype Result<+T, +E> = Ok(value: T) | Err(error: E)

  datatype Special = NaN | PosInf | NegInf

  datatype Value =
    | Null
    | Bool(b: bool)
    | Int(n: int)
    | Float(numeral: FloatText)
    | NonFinite(kind: Special)
    | Str(s: string)
    | Arr(items: seq<Value>)
    | Obj(members: seq<Member>)
      // `json.dumps` writes it, but it is not of type `JsonValue`: a tuple, or what a
      // dictionary holds under a key that is not text
    | Loose
      // `json.dumps` refuses it
    | Opaque

  datatype Member = Member(key: string, val: Value)

  /** A finite float is identified with its shortest decimal text, which never looks
      like the text of an integer. */
  type FloatText = t: string | IsFloatText(t) witness "0.0"

  predicate IsDigit(c: char) { '0' <= c <= '9' }

  predicate IsNumberChar(c: char) { IsDigit(c) || c == '-' || c == '+' || c == '.' || c == 'e' }

  predicate IsFloatText(t: string) {
    && |t| > 0
    && (IsDigit(t[0]) || t[0] == '-')
    && (forall i | 0 <= i < |t| :: IsNumberChar(t[i]))
    && ('.' in t || 'e' in t)
  }

  // ---------- dictionaries ----------

  predicate HasKey(ms: seq<Member>, k: string) { exists i | 0 <= i < |ms| :: ms[i].key == k }

  function Get(ms: seq<Member>, k: string): (r: Option<Value>)
    ensures r.Some? <==> HasKey(ms, k)
    ensures r.Some? ==> exists i | 0 <= i < |ms| :: ms[i] == Member(k, r.value)
  {
    if ms == [] then None
    else if ms[0].key == k then Some(ms[0].val)
    else
      var r := Get(ms[1..], k);
      assert forall i | 0 <= i < |ms| - 1 :: ms[1..][i] == ms[i + 1];
      assert forall i | 1 <= i < |ms| :: ms[i] == ms[1..][i - 1];
      r
  }

  ghost predicate Unique(ms: seq<Member>) {
    forall i, j | 0 <= i < j < |ms| :: ms[i].key != ms[j].key
  }

  ghost function Keys(ms: seq<Member>): set<string> { set i | 0 <= i < |ms| :: ms[i].key }

  lemma GetAt(ms: seq<Member>, i: nat)
    requires Unique(ms) && i < |ms|
    ensures Get(ms, ms[i].key) == Some(ms[i].val)
  {
    var r := Get(ms, ms[i].key);
    assert HasKey(ms, ms[i].key);
    var j :| 0 <= j < |ms| && ms[j] == Member(ms[i].key, r.value);
    assert i == j;
  }

  /** Every dictionary in the value has distinct keys, as Python dictionaries do. */
  ghost predicate WellFormed(v: Value) {
    match v
    case Arr(items) => forall i | 0 <= i < |items| :: WellFormed(items[i])
    case Obj(ms) => Unique(ms) && forall i | 0 <= i < |ms| :: WellFormed(ms[i].val)
    case _ => true
  }

  /** `json.dumps(v, allow_nan=False)` succeeds. */
  predicate Serializable(v: Value) {
    match v
    case NonFinite(_) => false
    case Opaque => false
    case Arr(items) => forall i | 0 <= i < |items| :: Serializable(items[i])
    case Obj(ms) => forall i | 0 <= i < |ms| :: Serializable(ms[i].val)
    case _ => true
  }

  /** A field of type `JsonValue` accepts the value: a tree of lists and text-keyed
      dictionaries over null, booleans, finite numbers and text. */
  predicate IsJson(v: Value) {
    match v
    case NonFinite(_) => false
    case Loose => false
    case Opaque => false
    case Arr(items) => forall i | 0 <= i < |items| :: IsJson(items[i])
    case Obj(ms) => forall i | 0 <= i < |ms| :: IsJson(ms[i].val)
    case _ => true
  }

  predicate HasLoose(v: Value) {
    match v
    case Loose => true
    case Arr(items) => exists i | 0 <= i < |items| :: HasLoose(items[i])
    case Obj(ms) => exists i | 0 <= i < |ms| :: HasLoose(ms[i].val)
    case _ => false
  }

  /** What a field accepts is what `json.dumps` accepts, less the loose values. */
  lemma {:induction false} JsonMeans(v: Value)
    ensures IsJson(v) <==> Serializable(v) && !HasLoose(v)
  {
    match v
    case Arr(items) => forall i | 0 <= i < |items| { JsonMeans(items[i]); }
    case Obj(ms) => forall i | 0 <= i < |ms| { JsonMeans(ms[i].val); }
    case _ =>
  }

  predicate Distinct(texts: seq<string>) { forall i, j | 0 <= i < j < |texts| :: texts[i] != texts[j] }

  /** Equality up to the order of object members, at every depth. */
  ghost predicate Same(v: Value, w: Value) {
    match (v, w)
    case (Arr(xs), Arr(ys)) => |xs| == |ys| && forall i | 0 <= i < |xs| :: Same(xs[i], ys[i])
    case (Obj(ms), Obj(ns)) =>
      && Keys(ms) == Keys(ns)
      && forall i | 0 <= i < |ms| ::
           Get(ns, ms[i].key).Some? && Same(ms[i].val, Get(ns, ms[i].key).value)
    case _ => v == w
  }

  lemma {:induction false} SameReflexive(v: Value)
    requires WellFormed(v)
    ensures Same(v, v)
  {
    match v
    case Arr(items) => forall i | 0 <= i < |items| ensures Same(items[i], items[i]) { SameReflexive(items[i]); }
    case Obj(ms) =>
      forall i | 0 <= i < |ms|
        ensures Get(ms, ms[i].key) == Some(ms[i].val) && Same(ms[i].val, ms[i].val)
      {
        GetAt(ms, i);
        SameReflexive(ms[i].val);
      }
    case _ =>
  }

  // ---------- numbers ----------

  predicate IsNumber(v: Value) { v.Int? || v.Float? || v.NonFinite? }

  function Pow10(n: nat): (p: nat)
    ensures p > 0
  {
    if n == 0 then 1 else 10 * Pow10(n - 1)
  }

  function IndexOf(t: string, c: char): (i: nat)
    ensures i <= |t|
  {
    if t == "" || t[0] == c then 0 else 1 + IndexOf(t[1..], c)
  }

  function DigitsValue(t: string): nat {
    if t == "" then 0
    else DigitsValue(t[..|t| - 1]) * 10 + (if IsDigit(t[|t| - 1]) then t[|t| - 1] as int - '0' as int else 0)
  }

  /** The number a decimal numeral such as `-12.5e-3` stands for. */
  function NumeralValue(t: string): real {
    if |t| > 0 && t[0] == '-' then -Magnitude(t[1..]) else Magnitude(t)
  }

  /** The same, for a numeral without a sign. */
  function Magnitude(body: string): real {
    var e := IndexOf(body, 'e');
    Scaled(Mantissa(body[..e]), if e < |body| then body[e + 1..] else "")
  }

  function Mantissa(t: string): real {
    var d := IndexOf(t, '.');
    var fraction := if d < |t| then t[d + 1..] else "";
    DigitsValue(t[..d]) as real + DigitsValue(fraction) as real / Pow10(|fraction|) as real
  }

  function Scaled(m: real, exponent: string): real {
    var scale := Pow10(DigitsValue(exponent)) as real;
    if '-' in exponent then m / scale else m * scale
  }

  /** Python's `v < w` on numbers; comparisons with NaN are false. */
  predicate NumberLess(v: Value, w: Value)
    requires IsNumber(v) && IsNumber(w)
  {
    if v == NonFinite(NaN) || w == NonFinite(NaN) then false
    else if v.NonFinite? && w.NonFinite? then v.kind.NegInf? && w.kind.PosInf?
    else if v.NonFinite? then v.kind.NegInf?
    else if w.NonFinite? then w.kind.PosInf?
    else Finite(v) < Finite(w)
  }

  function Finite(v: Value): real
    requires v.Int? || v.Float?
  {
    if v.Int? then v.n as real else NumeralValue(v.numeral)
  }

  lemma NumberLessTransfers(v: Value, low: Value, high: Value)
    requires IsNumber(v) && IsNumber(low) && IsNumber(high)
    requires !NumberLess(high, low) && low != NonFinite(NaN) && high != NonFinite(NaN)
    requires v == NonFinite(NaN) || !NumberLess(v, high)
    ensures !NumberLess(v, low)
  {
  }
}
