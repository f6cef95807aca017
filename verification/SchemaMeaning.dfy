/** What each form of schema accepts and what it answers otherwise, in the schema's own words. */
module SchemaMeaning {
  import opened Json
  import opened JsonText
  import opened SchemaValidation

  /** The schema's `type` member is this text. */
  predicate Typed(s: seq<Member>, t: string) { Get(s, "type") == Some(Str(t)) }

  lemma TypeNames()
    ensures TypeNamed("object") == ObjectType && TypeNamed("string") == StringType
    ensures TypeNamed("integer") == IntegerType && TypeNamed("number") == NumberType
    ensures TypeNamed("boolean") == BooleanType && TypeNamed("array") == ArrayType
  {
  }

  lemma OtherNames(t: string)
    requires t != "object" && t != "string" && t != "integer" && t != "number" && t != "boolean" && t != "array"
    ensures TypeNamed(t) == Unsupported
  {
  }

  lemma TypedMeans(s: seq<Member>, t: string)
    requires Typed(s, t)
    ensures TypeOf(s) == TypeNamed(t)
  {
  }

  // ---------- by the type that a schema asks for ----------

  lemma WrongTypeSays(v: Value, s: seq<Member>)
    requires !HasType(v, TypeOf(s))
    ensures SchemaError(v, s) == Some("$" + " " + TypeMessage(TypeOf(s)))
  {
  }

  lemma PlainTypeSays(v: Value, s: seq<Member>)
    requires HasType(v, TypeOf(s)) && !IsObjectSchema(s) && !IsNumericSchema(s)
    ensures SchemaError(v, s) == if Serializable(v) then None else Some("$" + " must be JSON serializable")
  {
  }

  lemma NumericSays(v: Value, s: seq<Member>)
    requires HasType(v, TypeOf(s)) && IsNumericSchema(s)
    ensures SchemaError(v, s)
         == if Minimum(s).Some? && NumberLess(v, Minimum(s).value)
            then Some("$" + " must be at least " + NumberText(Minimum(s).value))
            else if Serializable(v) then None
            else Some("$" + " must be JSON serializable")
  {
  }

  // ---------- types without anything further ----------

  lemma TextsAccepted(v: Value, s: seq<Member>)
    requires Typed(s, "string")
    ensures SchemaError(v, s) == if v.Str? then None else Some("$" + " " + "must be a string")
  {
    TypeNames();
    TypedMeans(s, "string");
    if v.Str? { PlainTypeSays(v, s); } else { WrongTypeSays(v, s); }
  }

  lemma BooleansAccepted(v: Value, s: seq<Member>)
    requires Typed(s, "boolean")
    ensures SchemaError(v, s) == if v.Bool? then None else Some("$" + " " + "must be a boolean")
  {
    TypeNames();
    TypedMeans(s, "boolean");
    if v.Bool? { PlainTypeSays(v, s); } else { WrongTypeSays(v, s); }
  }

  lemma ListsAccepted(v: Value, s: seq<Member>)
    requires Typed(s, "array")
    ensures SchemaError(v, s)
         == if !v.Arr? then Some("$" + " " + "must be an array")
            else if Serializable(v) then None
            else Some("$" + " must be JSON serializable")
  {
    TypeNames();
    TypedMeans(s, "array");
    if v.Arr? { PlainTypeSays(v, s); } else { WrongTypeSays(v, s); }
  }

  /** A schema without a type asks only that `json.dumps` accept the value. */
  lemma AnythingAccepted(v: Value, s: seq<Member>)
    requires Get(s, "type").None? || Get(s, "type") == Some(Null)
    ensures SchemaError(v, s) == if Serializable(v) then None else Some("$" + " must be JSON serializable")
  {
    PlainTypeSays(v, s);
  }

  lemma OtherType(s: seq<Member>)
    requires Get(s, "type").Some? && !Get(s, "type").value.Null?
    requires !Typed(s, "object") && !Typed(s, "string") && !Typed(s, "integer")
    requires !Typed(s, "number") && !Typed(s, "boolean") && !Typed(s, "array")
    ensures TypeOf(s) == Unsupported
  {
    var named := Get(s, "type").value;
    if named.Str? {
      OtherNames(named.s);
      TypedMeans(s, named.s);
    }
  }

  lemma OtherTypesRefused(v: Value, s: seq<Member>)
    requires Get(s, "type").Some? && !Get(s, "type").value.Null?
    requires !Typed(s, "object") && !Typed(s, "string") && !Typed(s, "integer")
    requires !Typed(s, "number") && !Typed(s, "boolean") && !Typed(s, "array")
    ensures SchemaError(v, s) == Some("$" + " " + "has unsupported schema type")
  {
    OtherType(s);
    WrongTypeSays(v, s);
  }

  lemma ObjectsMustBe(v: Value, s: seq<Member>)
    requires Typed(s, "object") && !v.Obj?
    ensures SchemaError(v, s) == Some("$" + " " + "must be an object")
  {
    TypeNames();
    TypedMeans(s, "object");
    WrongTypeSays(v, s);
  }

  // ---------- numbers ----------

  /** The schema sets a minimum: a number, not a boolean. */
  predicate Bounded(s: seq<Member>) {
    match Get(s, "minimum")
    case Some(Int(_)) => true
    case Some(Float(_)) => true
    case Some(NonFinite(_)) => true
    case _ => false
  }

  lemma Numeric(s: seq<Member>)
    requires Typed(s, "integer") || Typed(s, "number")
    ensures IsNumericSchema(s) && !IsObjectSchema(s)
    ensures TypeOf(s) == if Typed(s, "integer") then IntegerType else NumberType
  {
    TypeNames();
    if Typed(s, "integer") { TypedMeans(s, "integer"); } else { TypedMeans(s, "number"); }
  }

  /** Booleans are not integers here. */
  lemma IntegersAccepted(v: Value, s: seq<Member>)
    requires Typed(s, "integer")
    ensures !v.Int? ==> SchemaError(v, s) == Some("$" + " " + "must be an integer")
    ensures v.Int? && !Bounded(s) ==> SchemaError(v, s).None?
  {
    Numeric(s);
    if v.Int? { NumericSays(v, s); } else { WrongTypeSays(v, s); }
  }

  lemma NumberIsNotInteger(s: seq<Member>)
    requires Typed(s, "number")
    ensures !Typed(s, "integer")
  {
    assert "number"[0] != "integer"[0];
  }

  lemma NumbersAccepted(v: Value, s: seq<Member>)
    requires Typed(s, "number")
    ensures !v.Int? && !v.Float? && !v.NonFinite? ==> SchemaError(v, s) == Some("$" + " " + "must be a number")
    ensures (v.Int? || v.Float?) && !Bounded(s) ==> SchemaError(v, s).None?
    ensures v.NonFinite? && !Bounded(s) ==> SchemaError(v, s) == Some("$" + " must be JSON serializable")
  {
    Numeric(s);
    NumberIsNotInteger(s);
    if IsNumber(v) { NumericSays(v, s); } else { WrongTypeSays(v, s); }
  }

  /** An integer meets an integer minimum exactly if it is at least as large. */
  lemma IntegerMinimum(n: int, m: int, s: seq<Member>)
    requires (Typed(s, "integer") || Typed(s, "number")) && Get(s, "minimum") == Some(Int(m))
    ensures SchemaError(Int(n), s) == if n >= m then None else Some("$" + " must be at least " + IntText(m))
  {
    Numeric(s);
    NumericSays(Int(n), s);
  }

  /** Numbers in general are compared as the real numbers they stand for. */
  lemma FloatMinimum(v: Value, low: Value, s: seq<Member>)
    requires if v.Int? then Typed(s, "integer") || Typed(s, "number") else v.Float? && Typed(s, "number")
    requires Get(s, "minimum") == Some(low) && (low.Int? || low.Float?)
    ensures var x := if v.Int? then v.n as real else NumeralValue(v.numeral);
      var y := if low.Int? then low.n as real else NumeralValue(low.numeral);
      SchemaError(v, s)
      == if x >= y then None else Some("$" + " must be at least " + if low.Int? then IntText(low.n) else low.numeral)
  {
    Numeric(s);
    if Typed(s, "number") { NumberIsNotInteger(s); }
    NumericSays(v, s);
  }

  /** Finite numbers are below positive infinity, and not below the other two. */
  lemma NonFiniteMinimum(v: Value, kind: Special, s: seq<Member>)
    requires (v.Int? || v.Float?) && Typed(s, "number") && Get(s, "minimum") == Some(NonFinite(kind))
    ensures SchemaError(v, s) == if kind.PosInf? then Some("$" + " must be at least " + "inf") else None
  {
    Numeric(s);
    NumberIsNotInteger(s);
    NumericSays(v, s);
  }

  // ---------- what numerals stand for ----------

  lemma {:induction false} IndexOfNone(t: string, c: char)
    requires forall i | 0 <= i < |t| :: t[i] != c
    ensures IndexOf(t, c) == |t|
  {
    if t != "" { IndexOfNone(t[1..], c); }
  }

  lemma {:induction false} IndexOfFirst(t: string, c: char, rest: string)
    requires forall i | 0 <= i < |t| :: t[i] != c
    ensures IndexOf(t + [c] + rest, c) == |t|
  {
    if t == "" {
      assert (t + [c] + rest)[0] == c;
    } else {
      IndexOfFirst(t[1..], c, rest);
      assert (t + [c] + rest)[1..] == t[1..] + [c] + rest;
    }
  }

  lemma OnlyDigit(c: char)
    requires IsDigit(c)
    ensures DigitsValue([c]) == c as int - '0' as int
  {
    assert [c][..0] == "";
  }

  lemma WholeBody(n: nat)
    ensures var body := NatText(n) + ".0";
      && IndexOf(body, 'e') == |body| && IndexOf(body, '.') == |NatText(n)|
      && body[..|NatText(n)|] == NatText(n) && body[|NatText(n)| + 1..] == "0"
  {
    var body := NatText(n) + ".0";
    IndexOfNone(body, 'e');
    IndexOfFirst(NatText(n), '.', "0");
    assert body == NatText(n) + ['.'] + "0";
  }

  lemma Unscaled(m: real)
    ensures Scaled(m, "") == m
  {
    assert DigitsValue("") == 0 && Pow10(0) == 1;
  }

  lemma WholeMantissa(n: nat)
    ensures Mantissa(NatText(n) + ".0") == n as real
  {
    WholeBody(n);
    NatTextValue(n);
    OnlyDigit('0');
    assert Pow10(1) == 10 * Pow10(0);
  }

  lemma WholeMagnitude(n: nat)
    ensures Magnitude(NatText(n) + ".0") == n as real
  {
    var body := NatText(n) + ".0";
    WholeBody(n);
    WholeMantissa(n);
    Unscaled(n as real);
    assert body[..|body|] == body;
  }

  lemma UnsignedNumeral(body: string)
    requires body != "" && body[0] != '-'
    ensures NumeralValue(body) == Magnitude(body)
  {
  }

  lemma SignedNumeral(body: string)
    ensures NumeralValue("-" + body) == -Magnitude(body)
  {
    assert ("-" + body)[1..] == body;
  }

  lemma NegativeWhole(n: nat)
    ensures NumeralValue("-" + NatText(n) + ".0") == -(n as real)
  {
    WholeMagnitude(n);
    Regrouped("-", NatText(n), ".0");
    SignedNumeral(NatText(n) + ".0");
  }

  lemma PositiveWhole(n: nat)
    ensures NumeralValue(NatText(n) + ".0") == n as real
  {
    WholeMagnitude(n);
    UnsignedNumeral(NatText(n) + ".0");
  }

  /** An integer's text with ".0" after it stands for that integer. */
  lemma WholeNumerals(n: int)
    ensures NumeralValue(IntText(n) + ".0") == n as real
  {
    if n < 0 { NegativeWhole(-n); } else { PositiveWhole(n); }
  }

  /** Digits after the point and exponents count as usual. */
  lemma NumeralsSpelled()
    ensures NumeralValue("2.5e-1") == 0.25 && NumeralValue("2.5e+1") == 25.0
  {
    HalfMantissa();
    SmallScale(2.5);
    HalfBody("2.5e-1", "-1");
    HalfBody("2.5e+1", "+1");
  }

  lemma HalfMantissa()
    ensures Mantissa("2.5") == 2.5
  {
    IndexOfFirst("2", '.', "5");
    assert "2.5" == "2" + ['.'] + "5" && "2.5"[..1] == "2" && "2.5"[2..] == "5";
    OnlyDigit('2');
    OnlyDigit('5');
    assert Pow10(1) == 10 * Pow10(0);
  }

  lemma SmallScale(m: real)
    ensures Scaled(m, "-1") == m / 10.0 && Scaled(m, "+1") == m * 10.0
  {
    SignAside('-');
    SignAside('+');
    assert "-1" == ['-'] + "1" && "+1" == ['+'] + "1";
    assert "-1"[0] == '-' && "+1"[0] != '-' && "+1"[1] != '-';
    assert Pow10(1) == 10 * Pow10(0);
  }

  /** `DigitsValue` reads past a sign. */
  lemma SignAside(sign: char)
    requires sign == '-' || sign == '+'
    ensures DigitsValue([sign] + "1") == 1
  {
    var t := [sign] + "1";
    assert |t| == 2 && t[1] == '1' && t[..1] == [sign] && [sign][..0] == "";
    assert DigitsValue([sign]) == 0;
  }

  lemma HalfBody(t: string, exponent: string)
    requires t == "2.5e" + exponent && |exponent| == 2
    ensures IndexOf(t, 'e') == 3 && t[..3] == "2.5" && t[4..] == exponent
  {
    IndexOfFirst("2.5", 'e', exponent);
    assert t == "2.5" + ['e'] + exponent;
  }

  // ---------- objects ----------

  /** The schema's `required` list names the field. */
  predicate Demands(s: seq<Member>, f: string) {
    match Get(s, "required")
    case Some(Arr(items)) => Str(f) in items
    case _ => false
  }

  /** The schema's `properties`, if they are an object. */
  function PropertyList(s: seq<Member>): seq<Member> {
    match Get(s, "properties")
    case Some(Obj(ps)) => ps
    case _ => []
  }

  /** What the i-th property's own schema says about the value's field of that name, if there is one. */
  function FieldError(ms: seq<Member>, p: Member): Option<string> {
    if p.val.Obj? && HasKey(ms, p.key) then SchemaError(Get(ms, p.key).value, p.val.members) else None
  }

  lemma FieldConforms(ms: seq<Member>, p: Member)
    ensures Applies(ms, p) ==> (FieldError(ms, p).None? <==> Conforms(Get(ms, p.key).value, p.val.members))
  {
    if Applies(ms, p) { ValidateDecides(Get(ms, p.key).value, p.val.members, []); }
  }

  lemma PropertiesQuiet(ms: seq<Member>, ps: seq<Member>)
    ensures ValidateProperties(ms, ps, 0, []).None? <==> forall j | 0 <= j < |ps| :: FieldError(ms, ps[j]).None?
  {
    PropertiesDecide(ms, ps, 0, []);
    forall j | 0 <= j < |ps|
      ensures Applies(ms, ps[j]) ==>
        (FieldError(ms, ps[j]).None? <==> Conforms(Get(ms, ps[j].key).value, ps[j].val.members))
    {
      FieldConforms(ms, ps[j]);
    }
  }

  lemma ObjectSchema(s: seq<Member>)
    requires Typed(s, "object")
    ensures IsObjectSchema(s) && !IsNumericSchema(s) && TypeOf(s) == ObjectType && Properties(s) == PropertyList(s)
  {
    TypeNames();
    TypedMeans(s, "object");
  }

  /** What the validator does with an object under an object schema. */
  lemma ObjectSays(ms: seq<Member>, s: seq<Member>)
    requires TypeOf(s) == ObjectType
    ensures var first := FirstRequired(ms, Required(s));
      var next := ValidateProperties(ms, Properties(s), 0, []);
      SchemaError(Obj(ms), s)
      == if first.Some? then Some("$" + "." + first.value + " is required")
         else if next.Some? then Some(Message(next.value))
         else if Serializable(Obj(ms)) then None
         else Some("$" + " must be JSON serializable")
  {
  }

  /** An object is accepted exactly if it has every required field, each property that it has
      is accepted by that property's schema, and `json.dumps` accepts it. */
  lemma ObjectsAccepted(ms: seq<Member>, s: seq<Member>)
    requires Typed(s, "object")
    ensures SchemaError(Obj(ms), s).None?
       <==> (&& (forall f | Demands(s, f) :: HasKey(ms, f))
             && (forall i | 0 <= i < |PropertyList(s)| :: FieldError(ms, PropertyList(s)[i]).None?)
             && Serializable(Obj(ms)))
  {
    ObjectSchema(s);
    ObjectSays(ms, s);
    NoMissingFields(ms, Required(s));
    PropertiesQuiet(ms, PropertyList(s));
    RequiredAreDemanded(ms, s);
  }

  lemma RequiredAreDemanded(ms: seq<Member>, s: seq<Member>)
    ensures (forall f | Demands(s, f) :: HasKey(ms, f)) <==> forall r | r in Required(s) && r.Str? :: HasKey(ms, r.s)
  {
    if forall f | Demands(s, f) :: HasKey(ms, f) {
      forall r | r in Required(s) && r.Str? ensures HasKey(ms, r.s) { assert Demands(s, r.s); }
    }
  }

  lemma {:induction false} FirstRequiredIs(ms: seq<Member>, items: seq<Value>, i: nat)
    requires i < |items| && items[i].Str? && !HasKey(ms, items[i].s)
    requires forall j | 0 <= j < i && items[j].Str? :: HasKey(ms, items[j].s)
    ensures FirstRequired(ms, items) == Some(items[i].s)
  {
    if i > 0 { FirstRequiredIs(ms, items[1..], i - 1); }
  }

  /** The first required field that is missing is the one named. */
  lemma MissingFieldNamed(ms: seq<Member>, s: seq<Member>, items: seq<Value>, i: nat)
    requires Typed(s, "object") && Get(s, "required") == Some(Arr(items)) && i < |items| && items[i].Str?
    requires !HasKey(ms, items[i].s) && forall j | 0 <= j < i && items[j].Str? :: HasKey(ms, items[j].s)
    ensures SchemaError(Obj(ms), s) == Some("$" + "." + items[i].s + " is required")
  {
    ObjectSchema(s);
    ObjectSays(ms, s);
    FirstRequiredIs(ms, items, i);
  }

  // ---------- messages from below ----------

  function Below(path: seq<string>, x: Option<Violation>): Option<Violation> {
    match x case None => None case Some(y) => Some(Violation(path + y.path, y.kind))
  }

  /** The validator reports the same thing wherever in a value it looks. */
  lemma {:induction false} ValidateShifts(v: Value, s: seq<Member>, path: seq<string>, more: seq<string>)
    ensures Validate(v, s, path + more) == Below(path, Validate(v, s, more))
    decreases Obj(s), 1
  {
    PropertiesSmaller(s);
    if TypeComplaint(v, s).None? && IsObjectSchema(s) && Properties(s) != [] {
      PropertiesShift(v.members, Properties(s), 0, path, more);
    }
  }

  lemma {:induction false} PropertiesShift(ms: seq<Member>, ps: seq<Member>, i: nat, path: seq<string>,
                                           more: seq<string>)
    requires i <= |ps|
    ensures ValidateProperties(ms, ps, i, path + more) == Below(path, ValidateProperties(ms, ps, i, more))
    decreases Obj(ps), 0, |ps| - i
  {
    if i < |ps| {
      var p := ps[i];
      PropertiesShift(ms, ps, i + 1, path, more);
      if Applies(ms, p) {
        ValidateShifts(Get(ms, p.key).value, p.val.members, path, more + [p.key]);
        assert path + (more + [p.key]) == path + more + [p.key];
      }
    }
  }

  lemma {:induction false} PathTextBelow(k: string, path: seq<string>)
    ensures PathText(path)[0] == '$' && PathText([k] + path) == "$." + k + PathText(path)[1..]
  {
    var n := |path|;
    if n == 0 {
      assert ([k] + path)[..0] == [] && "$" + "." + k == "$." + k + "";
    } else {
      var short := path[..n - 1];
      PathTextBelow(k, short);
      assert ([k] + path)[..n] == [k] + short;
      var rest := "." + path[n - 1];
      assert PathText(path) == PathText(short) + rest;
      assert "$." + k + PathText(short)[1..] + rest == "$." + k + (PathText(short) + rest)[1..];
    }
  }

  /** A message after its path. */
  function Ending(kind: Kind): string {
    match kind
    case WrongType(e) => " " + TypeMessage(e)
    case Missing(f) => "." + f + " is required"
    case BelowMinimum(m) => " must be at least " + (if IsNumber(m) then NumberText(m) else "")
    case NotJson => " must be JSON serializable"
  }

  lemma MessageEnds(x: Violation)
    ensures Message(x) == PathText(x.path) + Ending(x.kind)
  {
    var t := PathText(x.path);
    match x.kind
    case WrongType(e) => Regrouped(t, " ", TypeMessage(e));
    case Missing(f) =>
      Regrouped(t, ".", f);
      Regrouped(t, "." + f, " is required");
    case BelowMinimum(m) => Regrouped(t, " must be at least ", if IsNumber(m) then NumberText(m) else "");
    case NotJson =>
  }

  lemma Regrouped(a: string, b: string, c: string)
    ensures a + b + c == a + (b + c)
  {
  }

  lemma AfterRoot(start: string, t: string, ending: string)
    requires t != ""
    ensures start + t[1..] + ending == start + (t + ending)[1..] && (t + ending)[0] == t[0]
  {
  }

  lemma MessageBelow(k: string, x: Violation)
    ensures Message(x) != "" && Message(Violation([k] + x.path, x.kind)) == "$." + k + Message(x)[1..]
  {
    PathTextBelow(k, x.path);
    MessageEnds(x);
    MessageEnds(Violation([k] + x.path, x.kind));
    AfterRoot("$." + k, PathText(x.path), Ending(x.kind));
  }

  lemma {:induction false} FirstBadProperty(ms: seq<Member>, ps: seq<Member>, k: nat, i: nat)
    requires k <= i < |ps| && FieldError(ms, ps[i]).Some?
    requires forall j | k <= j < i :: FieldError(ms, ps[j]).None?
    ensures var x := ValidateProperties(ms, ps, k, []);
      x.Some? && Message(x.value) == "$." + ps[i].key + FieldError(ms, ps[i]).value[1..]
    decreases i - k
  {
    var p := ps[k];
    if Applies(ms, p) {
      ValidateShifts(Get(ms, p.key).value, p.val.members, [p.key], []);
      assert [] + [p.key] == [p.key] + [] == [p.key];
    }
    if k < i {
      FirstBadProperty(ms, ps, k + 1, i);
    } else {
      MessageBelow(p.key, Validate(Get(ms, p.key).value, p.val.members, []).value);
    }
  }

  /** With every required field there, the complaint is that of the first property whose own
      schema complains, with the property's name put after the root. */
  lemma BadPropertyNamed(ms: seq<Member>, s: seq<Member>, i: nat)
    requires Typed(s, "object") && forall f | Demands(s, f) :: HasKey(ms, f)
    requires i < |PropertyList(s)| && FieldError(ms, PropertyList(s)[i]).Some?
    requires forall j | 0 <= j < i :: FieldError(ms, PropertyList(s)[j]).None?
    ensures SchemaError(Obj(ms), s)
         == Some("$." + PropertyList(s)[i].key + FieldError(ms, PropertyList(s)[i]).value[1..])
  {
    ObjectSchema(s);
    ObjectSays(ms, s);
    RequiredAreDemanded(ms, s);
    NoMissingFields(ms, Required(s));
    FirstBadProperty(ms, PropertyList(s), 0, i);
  }

  /** With fields and properties in order, only the JSON check is left. */
  lemma OnlyJsonLeft(ms: seq<Member>, s: seq<Member>)
    requires Typed(s, "object") && (forall f | Demands(s, f) :: HasKey(ms, f))
    requires forall i | 0 <= i < |PropertyList(s)| :: FieldError(ms, PropertyList(s)[i]).None?
    requires !Serializable(Obj(ms))
    ensures SchemaError(Obj(ms), s) == Some("$" + " must be JSON serializable")
  {
    ObjectSchema(s);
    ObjectSays(ms, s);
    RequiredAreDemanded(ms, s);
    NoMissingFields(ms, Required(s));
    PropertiesQuiet(ms, PropertyList(s));
  }
}
