/** The validator for a subset of JSON Schema that guards tool inputs and outputs. */
module SchemaValidation {
  import opened Json
  import opened CanonicalText

  /** What a schema's `type` member asks for. */
  datatype SchemaType =
    | AnyType | ObjectType | StringType | IntegerType | NumberType | BooleanType | ArrayType | Unsupported

  datatype Kind =
    | WrongType(expected: SchemaType)
    | Missing(field: string)
    | BelowMinimum(minimum: Value)
    | NotJson

  /** A violation: where it is, as the fields walked from the root, and what is wrong there. */
  datatype Violation = Violation(path: seq<string>, kind: Kind)

  // ---------- reading a schema ----------

  function TypeNamed(t: string): SchemaType {
    if t == "object" then ObjectType
    else if t == "string" then StringType
    else if t == "integer" then IntegerType
    else if t == "number" then NumberType
    else if t == "boolean" then BooleanType
    else if t == "array" then ArrayType
    else Unsupported
  }

  function TypeOf(s: seq<Member>): SchemaType {
    match Get(s, "type")
    case None => AnyType
    case Some(Null) => AnyType
    case Some(Str(t)) => TypeNamed(t)
    case Some(_) => Unsupported
  }

  predicate IsObjectSchema(s: seq<Member>) { TypeOf(s).ObjectType? }

  predicate IsNumericSchema(s: seq<Member>) { TypeOf(s).IntegerType? || TypeOf(s).NumberType? }

  function Required(s: seq<Member>): seq<Value> {
    match Get(s, "required")
    case Some(Arr(items)) => items
    case _ => []
  }

  function Properties(s: seq<Member>): seq<Member> {
    match Get(s, "properties")
    case Some(Obj(ms)) => ms
    case _ => []
  }

  function Minimum(s: seq<Member>): Option<Value> {
    match Get(s, "minimum")
    case Some(m) => if IsNumber(m) then Some(m) else None
    case None => None
  }

  lemma PropertiesSmaller(s: seq<Member>)
    ensures Properties(s) == [] || Obj(Properties(s)) < Obj(s)
  {
    if Properties(s) != [] {
      var i :| 0 <= i < |s| && s[i] == Member("properties", Get(s, "properties").value);
      assert s[i].val < Obj(s);
    }
  }

  predicate HasType(v: Value, t: SchemaType) {
    match t
    case AnyType => true
    case ObjectType => v.Obj?
    case StringType => v.Str?
    case IntegerType => v.Int?
    case NumberType => IsNumber(v)
    case BooleanType => v.Bool?
    case ArrayType => v.Arr?
    case Unsupported => false
  }

  function TypeComplaint(v: Value, s: seq<Member>): Option<SchemaType> {
    if HasType(v, TypeOf(s)) then None else Some(TypeOf(s))
  }

  // ---------- the validator ----------

  function FirstRequired(ms: seq<Member>, required: seq<Value>): Option<string> {
    if required == [] then None
    else if required[0].Str? && !HasKey(ms, required[0].s) then Some(required[0].s)
    else FirstRequired(ms, required[1..])
  }

  /** A property is checked when its schema is an object and the field is present. */
  predicate Applies(ms: seq<Member>, p: Member) { p.val.Obj? && HasKey(ms, p.key) }

  /** Checks one value, stopping at the first violation. */
  function Validate(v: Value, s: seq<Member>, path: seq<string>): Option<Violation>
    decreases Obj(s), 1
  {
    PropertiesSmaller(s);
    match TypeComplaint(v, s)
    case Some(complaint) => Some(Violation(path, WrongType(complaint)))
    case None =>
      var inner :=
        if IsObjectSchema(s) then
          match FirstRequired(v.members, Required(s))
          case Some(f) => Some(Violation(path, Missing(f)))
          case None => if Properties(s) == [] then None else ValidateProperties(v.members, Properties(s), 0, path)
        else if IsNumericSchema(s) && Minimum(s).Some? && NumberLess(v, Minimum(s).value) then
          Some(Violation(path, BelowMinimum(Minimum(s).value)))
        else None;
      if inner.Some? then inner
      else if !Serializable(v) then Some(Violation(path, NotJson))
      else None
  }

  function ValidateProperties(ms: seq<Member>, properties: seq<Member>, i: nat, path: seq<string>): Option<Violation>
    requires i <= |properties|
    decreases Obj(properties), 0, |properties| - i
  {
    if i == |properties| then None
    else
      var p := properties[i];
      var first := if Applies(ms, p) then Validate(Get(ms, p.key).value, p.val.members, path + [p.key]) else None;
      if first.Some? then first else ValidateProperties(ms, properties, i + 1, path)
  }

  function PathText(path: seq<string>): string {
    if path == [] then "$" else PathText(path[..|path| - 1]) + "." + path[|path| - 1]
  }

  function NumberText(v: Value): string
    requires IsNumber(v)
  {
    match v
    case Int(n) => JsonText.IntText(n)
    case Float(t) => t
    case NonFinite(k) => if k.NaN? then "nan" else if k.PosInf? then "inf" else "-inf"
  }

  function TypeMessage(t: SchemaType): string {
    match t
    case AnyType => ""
    case ObjectType => "must be an object"
    case StringType => "must be a string"
    case IntegerType => "must be an integer"
    case NumberType => "must be a number"
    case BooleanType => "must be a boolean"
    case ArrayType => "must be an array"
    case Unsupported => "has unsupported schema type"
  }

  /** The error message of a violation. */
  function Message(x: Violation): string {
    match x.kind
    case WrongType(t) => PathText(x.path) + " " + TypeMessage(t)
    case Missing(f) => PathText(x.path) + "." + f + " is required"
    case BelowMinimum(m) => PathText(x.path) + " must be at least " + (if IsNumber(m) then NumberText(m) else "")
    case NotJson => PathText(x.path) + " must be JSON serializable"
  }

  /** `_validate_against_schema`: an error message, or nothing. */
  function SchemaError(v: Value, s: seq<Member>): Option<string> {
    match Validate(v, s, [])
    case None => None
    case Some(x) => Some(Message(x))
  }

  // ---------- what conformance means ----------

  /** The value fits the schema, leaving JSON serializability aside. */
  ghost predicate Fits(v: Value, s: seq<Member>)
    decreases Obj(s)
  {
    PropertiesSmaller(s);
    && TypeComplaint(v, s).None?
    && (IsObjectSchema(s) ==>
          && (forall r | r in Required(s) && r.Str? :: HasKey(v.members, r.s))
          && (forall i | 0 <= i < |Properties(s)| && Applies(v.members, Properties(s)[i]) ::
                Fits(Get(v.members, Properties(s)[i].key).value, Properties(s)[i].val.members)))
    && (IsNumericSchema(s) && Minimum(s).Some? ==> !NumberLess(v, Minimum(s).value))
  }

  /** A conforming value fits the schema and is JSON, checked once at the root. */
  ghost predicate Conforms(v: Value, s: seq<Member>) { Serializable(v) && Fits(v, s) }

  /** A violation at exactly this value and schema. */
  predicate ViolatesHere(v: Value, s: seq<Member>, kind: Kind) {
    match kind
    case WrongType(complaint) => TypeComplaint(v, s) == Some(complaint)
    case Missing(f) => IsObjectSchema(s) && v.Obj? && Str(f) in Required(s) && !HasKey(v.members, f)
    case BelowMinimum(m) =>
      IsNumericSchema(s) && TypeComplaint(v, s).None? && Minimum(s) == Some(m) && NumberLess(v, m)
    case NotJson => !Serializable(v)
  }

  /** Walking the fields through the value and through nested property schemas reaches a
      subvalue and the subschema that applies to it, and that pair is in violation. */
  ghost predicate ViolatesAt(v: Value, s: seq<Member>, walk: seq<string>, kind: Kind)
    decreases |walk|
  {
    if walk == [] then ViolatesHere(v, s, kind)
    else
      && IsObjectSchema(s) && v.Obj? && HasKey(v.members, walk[0])
      && Get(Properties(s), walk[0]).Some? && Get(Properties(s), walk[0]).value.Obj?
      && ViolatesAt(Get(v.members, walk[0]).value, Get(Properties(s), walk[0]).value.members, walk[1..], kind)
  }

  // ---------- every violation, in the order the validator looks ----------

  function MissingFields(ms: seq<Member>, required: seq<Value>, path: seq<string>): seq<Violation> {
    if required == [] then []
    else
      (if required[0].Str? && !HasKey(ms, required[0].s) then [Violation(path, Missing(required[0].s))] else [])
      + MissingFields(ms, required[1..], path)
  }

  /** What is wrong with the value itself, before its properties are looked at. */
  function OwnViolations(v: Value, s: seq<Member>, path: seq<string>): seq<Violation> {
    match TypeComplaint(v, s)
    case Some(complaint) => [Violation(path, WrongType(complaint))]
    case None =>
      if IsObjectSchema(s) then MissingFields(v.members, Required(s), path)
      else if IsNumericSchema(s) && Minimum(s).Some? && NumberLess(v, Minimum(s).value) then
        [Violation(path, BelowMinimum(Minimum(s).value))]
      else []
  }

  function JsonViolations(v: Value, path: seq<string>): seq<Violation> {
    if Serializable(v) then [] else [Violation(path, NotJson)]
  }

  /** The properties are looked at only in an object that has the right type. */
  predicate HasNested(v: Value, s: seq<Member>) {
    TypeComplaint(v, s).None? && IsObjectSchema(s) && Properties(s) != []
  }

  function Violations(v: Value, s: seq<Member>, path: seq<string>): seq<Violation>
    decreases Obj(s), 1
  {
    PropertiesSmaller(s);
    OwnViolations(v, s, path)
    + (if HasNested(v, s) then PropertyViolations(v.members, Properties(s), 0, path) else [])
    + JsonViolations(v, path)
  }

  function PropertyViolations(ms: seq<Member>, properties: seq<Member>, i: nat, path: seq<string>): seq<Violation>
    requires i <= |properties|
    decreases Obj(properties), 0, |properties| - i
  {
    if i == |properties| then []
    else
      var p := properties[i];
      (if Applies(ms, p) then Violations(Get(ms, p.key).value, p.val.members, path + [p.key]) else [])
      + PropertyViolations(ms, properties, i + 1, path)
  }

  function First(xs: seq<Violation>): Option<Violation> { if xs == [] then None else Some(xs[0]) }

  lemma {:induction false} FirstMissingField(ms: seq<Member>, required: seq<Value>, path: seq<string>)
    ensures First(MissingFields(ms, required, path)) ==
      match FirstRequired(ms, required) case None => None case Some(f) => Some(Violation(path, Missing(f)))
  {
    if required != [] { FirstMissingField(ms, required[1..], path); }
  }

  /** The validator reports the first of all the violations, and none when there are none. */
  lemma {:induction false} ValidateReportsFirst(v: Value, s: seq<Member>, path: seq<string>)
    ensures Validate(v, s, path) == First(Violations(v, s, path))
    decreases Obj(s), 1
  {
    PropertiesSmaller(s);
    if TypeComplaint(v, s).None? && IsObjectSchema(s) {
      FirstMissingField(v.members, Required(s), path);
      if Properties(s) != [] { PropertiesReportFirst(v.members, Properties(s), 0, path); }
    }
  }

  lemma {:induction false} PropertiesReportFirst(ms: seq<Member>, properties: seq<Member>, i: nat, path: seq<string>)
    requires i <= |properties|
    ensures ValidateProperties(ms, properties, i, path) == First(PropertyViolations(ms, properties, i, path))
    decreases Obj(properties), 0, |properties| - i
  {
    if i < |properties| {
      var p := properties[i];
      if Applies(ms, p) { ValidateReportsFirst(Get(ms, p.key).value, p.val.members, path + [p.key]); }
      PropertiesReportFirst(ms, properties, i + 1, path);
    }
  }

  lemma {:induction false} MissingFieldsAre(ms: seq<Member>, required: seq<Value>, path: seq<string>, x: Violation)
    ensures x in MissingFields(ms, required, path)
       <==> x.path == path && x.kind.Missing? && Str(x.kind.field) in required && !HasKey(ms, x.kind.field)
  {
    if required != [] {
      MissingFieldsAre(ms, required[1..], path, x);
      assert required == [required[0]] + required[1..];
    }
  }

  lemma LocalViolationsAre(v: Value, s: seq<Member>, path: seq<string>, x: Violation)
    ensures x in OwnViolations(v, s, path) || x in JsonViolations(v, path)
       <==> x.path == path && ViolatesHere(v, s, x.kind)
  {
    if TypeComplaint(v, s).None? && IsObjectSchema(s) { MissingFieldsAre(v.members, Required(s), path, x); }
  }

  /** The list holds exactly the real violations: each entry's path leads to a subvalue and
      its subschema that violate it, and every such pair is in the list. */
  lemma {:induction false} ViolationsAreReal(v: Value, s: seq<Member>, path: seq<string>, x: Violation)
    requires WellFormed(Obj(s))
    ensures x in Violations(v, s, path) <==> path <= x.path && ViolatesAt(v, s, x.path[|path|..], x.kind)
    decreases Obj(s), 1
  {
    PropertiesSmaller(s);
    PropertiesWellFormed(s);
    LocalViolationsAre(v, s, path, x);
    NestedViolationsAre(v, s, path, x);
    if HasNested(v, s) { PropertyViolationsAreReal(v.members, Properties(s), 0, path, x); }
    if path <= x.path && |x.path| == |path| { assert x.path == path; }
  }

  lemma NestedViolationsAre(v: Value, s: seq<Member>, path: seq<string>, x: Violation)
    requires WellFormed(Obj(Properties(s)))
    ensures path <= x.path && |x.path| > |path| && ViolatesAt(v, s, x.path[|path|..], x.kind)
       <==> HasNested(v, s)
            && exists j :: 0 <= j < |Properties(s)| && ViolatesBelow(v.members, Properties(s)[j], path, x)
  {
    if !(path <= x.path && |x.path| > |path|) { return; }
    var walk := x.path[|path|..];
    assert walk[0] == x.path[|path|] && walk[1..] == x.path[|path| + 1..];
    var ps := Properties(s);
    if HasNested(v, s) {
      forall j | 0 <= j < |ps| && ViolatesBelow(v.members, ps[j], path, x) ensures ViolatesAt(v, s, walk, x.kind) {
        GetAt(ps, j);
      }
    }
    if ViolatesAt(v, s, walk, x.kind) {
      var j :| 0 <= j < |ps| && ps[j] == Member(walk[0], Get(ps, walk[0]).value);
      assert ViolatesBelow(v.members, ps[j], path, x);
    }
  }

  lemma PropertiesWellFormed(s: seq<Member>)
    requires WellFormed(Obj(s))
    ensures WellFormed(Obj(Properties(s)))
  {
    if Properties(s) != [] {
      var i :| 0 <= i < |s| && s[i] == Member("properties", Get(s, "properties").value);
      assert WellFormed(s[i].val);
    }
  }

  /** The step from an object to one of its checked properties. */
  ghost predicate ViolatesBelow(ms: seq<Member>, p: Member, path: seq<string>, x: Violation) {
    && Applies(ms, p) && |x.path| > |path| && path <= x.path && x.path[|path|] == p.key
    && ViolatesAt(Get(ms, p.key).value, p.val.members, x.path[|path| + 1..], x.kind)
  }

  lemma {:induction false} PropertyViolationsAreReal(ms: seq<Member>, properties: seq<Member>, i: nat,
                                                     path: seq<string>, x: Violation)
    requires WellFormed(Obj(properties)) && i <= |properties|
    ensures x in PropertyViolations(ms, properties, i, path)
       <==> exists j :: i <= j < |properties| && ViolatesBelow(ms, properties[j], path, x)
    decreases Obj(properties), 0, |properties| - i
  {
    if i < |properties| {
      var p := properties[i];
      var here := if Applies(ms, p) then Violations(Get(ms, p.key).value, p.val.members, path + [p.key]) else [];
      if Applies(ms, p) {
        ViolationsAreReal(Get(ms, p.key).value, p.val.members, path + [p.key], x);
        BelowIs(ms, p, path, x, here);
      }
      PropertyViolationsAreReal(ms, properties, i + 1, path, x);
      assert PropertyViolations(ms, properties, i, path) == here + PropertyViolations(ms, properties, i + 1, path);
    }
  }

  lemma BelowIs(ms: seq<Member>, p: Member, path: seq<string>, x: Violation, here: seq<Violation>)
    requires Applies(ms, p)
    requires x in here
        <==> path + [p.key] <= x.path
             && ViolatesAt(Get(ms, p.key).value, p.val.members, x.path[|path + [p.key]|..], x.kind)
    ensures x in here <==> ViolatesBelow(ms, p, path, x)
  {
    StepDown(path, p.key, x.path);
  }

  lemma StepDown(path: seq<string>, k: string, full: seq<string>)
    ensures path + [k] <= full <==> |full| > |path| && path <= full && full[|path|] == k
  {
    if |full| > |path| && path <= full && full[|path|] == k {
      assert full[..|path| + 1] == path + [k];
    }
    if path + [k] <= full {
      assert full[|path|] == (path + [k])[|path|];
      assert forall i | 0 <= i < |path| :: full[i] == (path + [k])[i];
    }
  }

  // ---------- the validator decides conformance ----------

  lemma {:induction false} NoMissingFields(ms: seq<Member>, required: seq<Value>)
    ensures FirstRequired(ms, required).None? <==> forall r | r in required && r.Str? :: HasKey(ms, r.s)
  {
    if required != [] {
      NoMissingFields(ms, required[1..]);
      assert required == [required[0]] + required[1..];
    }
  }

  lemma FieldSerializable(ms: seq<Member>, k: string)
    requires HasKey(ms, k) && Serializable(Obj(ms))
    ensures Serializable(Get(ms, k).value)
  {
    var i :| 0 <= i < |ms| && ms[i] == Member(k, Get(ms, k).value);
  }

  /** The validator accepts exactly the conforming values, although it repeats the JSON check
      at every level while conformance asks for it once. */
  lemma {:induction false} ValidateDecides(v: Value, s: seq<Member>, path: seq<string>)
    ensures Validate(v, s, path).None? <==> Conforms(v, s)
    decreases Obj(s), 1
  {
    PropertiesSmaller(s);
    if TypeComplaint(v, s).None? && IsObjectSchema(s) {
      NoMissingFields(v.members, Required(s));
      if Properties(s) != [] { PropertiesDecide(v.members, Properties(s), 0, path); }
    }
  }

  lemma {:induction false} PropertiesDecide(ms: seq<Member>, properties: seq<Member>, i: nat, path: seq<string>)
    requires i <= |properties|
    ensures ValidateProperties(ms, properties, i, path).None?
       <==> forall j | i <= j < |properties| && Applies(ms, properties[j]) ::
              Conforms(Get(ms, properties[j].key).value, properties[j].val.members)
    ensures Serializable(Obj(ms)) ==>
      (ValidateProperties(ms, properties, i, path).None?
       <==> forall j | i <= j < |properties| && Applies(ms, properties[j]) ::
              Fits(Get(ms, properties[j].key).value, properties[j].val.members))
    decreases Obj(properties), 0, |properties| - i
  {
    if i < |properties| {
      var p := properties[i];
      PropertiesDecide(ms, properties, i + 1, path);
      if Applies(ms, p) { ValidateDecides(Get(ms, p.key).value, p.val.members, path + [p.key]); }
      if Serializable(Obj(ms)) {
        forall j | i <= j < |properties| && Applies(ms, properties[j])
          ensures Serializable(Get(ms, properties[j].key).value)
        {
          FieldSerializable(ms, properties[j].key);
        }
      }
    }
  }

  /** `_validate_against_schema`: no message exactly for conforming values; otherwise the
      message is that of a real violation, the first one in the validator's order. */
  lemma SchemaErrorDecides(v: Value, s: seq<Member>)
    requires WellFormed(Obj(s))
    ensures SchemaError(v, s).None? <==> Conforms(v, s)
    ensures Conforms(v, s) <==> forall walk, kind :: !ViolatesAt(v, s, walk, kind)
    ensures SchemaError(v, s).Some? ==>
      exists x :: First(Violations(v, s, [])) == Some(x)
        && ViolatesAt(v, s, x.path, x.kind) && SchemaError(v, s).value == Message(x)
  {
    ValidateDecides(v, s, []);
    ValidateReportsFirst(v, s, []);
    var xs := Violations(v, s, []);
    forall walk, kind | ViolatesAt(v, s, walk, kind) ensures xs != [] {
      ViolationsAreReal(v, s, [], Violation(walk, kind));
      assert walk[0..] == walk;
    }
    if xs != [] {
      ViolationsAreReal(v, s, [], xs[0]);
      assert xs[0].path[0..] == xs[0].path;
      assert xs[0] in xs;
      assert ViolatesAt(v, s, xs[0].path, xs[0].kind);
    }
  }

  // ---------- member order does not matter ----------

  lemma SameSymmetric(v: Value, w: Value)
    requires WellFormed(v) && WellFormed(w) && Same(v, w)
    ensures Same(w, v)
  {
    CanonIffSame(v, w);
    CanonIffSame(w, v);
  }

  lemma {:induction false} SameSerializable(v: Value, w: Value)
    requires WellFormed(w) && Same(v, w) && Serializable(v)
    ensures Serializable(w)
  {
    match (v, w)
    case (Arr(xs), Arr(ys)) => forall i | 0 <= i < |xs| { SameSerializable(xs[i], ys[i]); }
    case (Obj(ms), Obj(ns)) =>
      forall j | 0 <= j < |ns| ensures Serializable(ns[j].val) {
        assert ns[j].key in Keys(ms);
        var i :| 0 <= i < |ms| && ms[i].key == ns[j].key;
        GetAt(ns, j);
        SameSerializable(ms[i].val, ns[j].val);
      }
    case _ =>
  }

  lemma SameLookup(ms: seq<Member>, ns: seq<Member>, k: string)
    requires WellFormed(Obj(ms)) && WellFormed(Obj(ns)) && Same(Obj(ms), Obj(ns))
    ensures HasKey(ms, k) <==> HasKey(ns, k)
    ensures HasKey(ms, k) ==>
      Same(Get(ms, k).value, Get(ns, k).value) && WellFormed(Get(ms, k).value) && WellFormed(Get(ns, k).value)
  {
    if HasKey(ms, k) {
      var i :| 0 <= i < |ms| && ms[i] == Member(k, Get(ms, k).value);
      assert Get(ns, ms[i].key).Some?;
      var j :| 0 <= j < |ns| && ns[j] == Member(k, Get(ns, k).value);
    }
    if HasKey(ns, k) {
      var j :| 0 <= j < |ns| && ns[j].key == k;
      assert k in Keys(ns);
      assert k in Keys(ms);
    }
  }

  lemma SameRequired(s: seq<Member>, s': seq<Member>)
    requires WellFormed(Obj(s)) && WellFormed(Obj(s')) && Same(Obj(s), Obj(s'))
    ensures forall t: string :: Str(t) in Required(s) <==> Str(t) in Required(s')
  {
    SameLookup(s, s', "required");
    var r, r' := Required(s), Required(s');
    assert |r| == |r'| && forall i | 0 <= i < |r| :: Same(r[i], r'[i]);
    forall t: string ensures Str(t) in r <==> Str(t) in r' {
      if Str(t) in r { var i :| 0 <= i < |r| && r[i] == Str(t); assert r'[i] == Str(t); }
      if Str(t) in r' { var i :| 0 <= i < |r'| && r'[i] == Str(t); assert Same(r[i], r'[i]); }
    }
  }

  lemma SameProperties(s: seq<Member>, s': seq<Member>)
    requires WellFormed(Obj(s)) && WellFormed(Obj(s')) && Same(Obj(s), Obj(s'))
    ensures Same(Obj(Properties(s)), Obj(Properties(s'))) && Minimum(s) == Minimum(s')
  {
    SameLookup(s, s', "properties");
    SameLookup(s, s', "minimum");
  }

  lemma SameTypeComplaint(v: Value, v': Value, s: seq<Member>, s': seq<Member>)
    requires Same(v, v')
    requires WellFormed(Obj(s)) && WellFormed(Obj(s')) && Same(Obj(s), Obj(s'))
    ensures TypeComplaint(v, s) == TypeComplaint(v', s') && TypeOf(s) == TypeOf(s')
  {
    SameLookup(s, s', "type");
  }

  lemma SameRequiredFields(v: Value, v': Value, s: seq<Member>, s': seq<Member>)
    requires v.Obj? && v'.Obj? && WellFormed(v) && WellFormed(v') && Same(v, v')
    requires WellFormed(Obj(s)) && WellFormed(Obj(s')) && Same(Obj(s), Obj(s'))
    requires forall r | r in Required(s) && r.Str? :: HasKey(v.members, r.s)
    ensures forall r | r in Required(s') && r.Str? :: HasKey(v'.members, r.s)
  {
    SameRequired(s, s');
    forall r | r in Required(s') && r.Str? ensures HasKey(v'.members, r.s) {
      assert Str(r.s) in Required(s);
      SameLookup(v.members, v'.members, r.s);
    }
  }

  lemma {:induction false} FitsUpToOrder(v: Value, v': Value, s: seq<Member>, s': seq<Member>)
    requires WellFormed(v) && WellFormed(v') && Same(v, v')
    requires WellFormed(Obj(s)) && WellFormed(Obj(s')) && Same(Obj(s), Obj(s'))
    requires Fits(v, s)
    ensures Fits(v', s')
    decreases Obj(s'), 1
  {
    SameTypeComplaint(v, v', s, s');
    SameProperties(s, s');
    PropertiesSmaller(s');
    if IsObjectSchema(s') {
      SameRequiredFields(v, v', s, s');
      PropertiesWellFormed(s);
      PropertiesWellFormed(s');
      forall i | 0 <= i < |Properties(s')| && Applies(v'.members, Properties(s')[i])
        ensures Fits(Get(v'.members, Properties(s')[i].key).value, Properties(s')[i].val.members)
      {
        PropertyFitsUpToOrder(v.members, v'.members, Properties(s), Properties(s'), i);
      }
    }
  }

  lemma {:induction false} PropertyFitsUpToOrder(ms: seq<Member>, ms': seq<Member>, ps: seq<Member>, ps': seq<Member>,
                                                 i: nat)
    requires WellFormed(Obj(ms)) && WellFormed(Obj(ms')) && Same(Obj(ms), Obj(ms'))
    requires WellFormed(Obj(ps)) && WellFormed(Obj(ps')) && Same(Obj(ps), Obj(ps'))
    requires forall j | 0 <= j < |ps| && Applies(ms, ps[j]) :: Fits(Get(ms, ps[j].key).value, ps[j].val.members)
    requires i < |ps'| && Applies(ms', ps'[i])
    ensures Fits(Get(ms', ps'[i].key).value, ps'[i].val.members)
    decreases Obj(ps'), 0
  {
    var k := ps'[i].key;
    GetAt(ps', i);
    SameLookup(ms, ms', k);
    SameLookup(ps, ps', k);
    var j :| 0 <= j < |ps| && ps[j] == Member(k, Get(ps, k).value);
    assert Applies(ms, ps[j]);
    FitsUpToOrder(Get(ms, k).value, Get(ms', k).value, ps[j].val.members, ps'[i].val.members);
  }

  /** Acceptance does not depend on member order, in the value or in the schema. */
  lemma ConformsUpToOrder(v: Value, v': Value, s: seq<Member>, s': seq<Member>)
    requires WellFormed(v) && WellFormed(v') && Same(v, v')
    requires WellFormed(Obj(s)) && WellFormed(Obj(s')) && Same(Obj(s), Obj(s'))
    ensures Conforms(v, s) <==> Conforms(v', s')
  {
    SameSymmetric(v, v');
    SameSymmetric(Obj(s), Obj(s'));
    if Conforms(v, s) {
      FitsUpToOrder(v, v', s, s');
      SameSerializable(v, v');
    }
    if Conforms(v', s') {
      FitsUpToOrder(v', v, s', s);
      SameSerializable(v', v);
    }
  }

  // ---------- narrowing ----------

  /** Schema n is at least as strict as schema w, at every depth. */
  ghost predicate Narrows(n: seq<Member>, w: seq<Member>)
    decreases Obj(w)
  {
    PropertiesSmaller(w);
    || TypeOf(w).AnyType?
    || (&& (TypeOf(n) == TypeOf(w) || (TypeOf(n).IntegerType? && TypeOf(w).NumberType?))
        && (IsObjectSchema(w) ==>
              && (forall r | r in Required(w) && r.Str? :: r in Required(n))
              && (forall i | 0 <= i < |Properties(w)| && Properties(w)[i].val.Obj? ::
                    Get(Properties(n), Properties(w)[i].key).Some?
                    && Get(Properties(n), Properties(w)[i].key).value.Obj?
                    && Narrows(Get(Properties(n), Properties(w)[i].key).value.members, Properties(w)[i].val.members)))
        && (IsNumericSchema(w) && Minimum(w).Some? && Minimum(w) != Some(NonFinite(NaN)) ==>
              Minimum(n).Some? && Minimum(n) != Some(NonFinite(NaN))
              && !NumberLess(Minimum(n).value, Minimum(w).value)))
  }

  /** Whatever the narrower schema accepts, the wider one accepts. */
  lemma {:induction false} NarrowingIsSound(v: Value, n: seq<Member>, w: seq<Member>)
    requires Narrows(n, w) && Conforms(v, n)
    ensures Conforms(v, w)
    decreases Obj(w), 1
  {
    PropertiesSmaller(w);
    if !TypeOf(w).AnyType? {
      if IsObjectSchema(w) {
        forall i | 0 <= i < |Properties(w)| && Applies(v.members, Properties(w)[i])
          ensures Fits(Get(v.members, Properties(w)[i].key).value, Properties(w)[i].val.members)
        {
          NarrowPropertyIsSound(v.members, Properties(n), Properties(w)[i]);
        }
      } else if IsNumericSchema(w) && Minimum(w).Some? {
        if Minimum(w) != Some(NonFinite(NaN)) {
          NumberLessTransfers(v, Minimum(w).value, Minimum(n).value);
        }
      }
    }
  }

  lemma {:induction false} NarrowPropertyIsSound(ms: seq<Member>, narrow: seq<Member>, p: Member)
    requires Serializable(Obj(ms)) && Applies(ms, p)
    requires Get(narrow, p.key).Some? && Get(narrow, p.key).value.Obj?
    requires Narrows(Get(narrow, p.key).value.members, p.val.members)
    requires forall j | 0 <= j < |narrow| && Applies(ms, narrow[j]) ::
      Fits(Get(ms, narrow[j].key).value, narrow[j].val.members)
    ensures Fits(Get(ms, p.key).value, p.val.members)
    decreases p.val, 2
  {
    var n := Get(narrow, p.key).value;
    var j :| 0 <= j < |narrow| && narrow[j] == Member(p.key, n);
    assert Applies(ms, narrow[j]);
    FieldSerializable(ms, p.key);
    NarrowingIsSound(Get(ms, p.key).value, n.members, p.val.members);
  }
}
