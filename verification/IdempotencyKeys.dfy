/** Deterministic idempotency keys from explicitly selected argument fields. */
module IdempotencyKeys {
  import opened Json
  import opened CanonicalText

  const KEY_PREFIX := "agentactum:v1"

  datatype KeyError =
    | BlankToolName
    | NoFields
    | DuplicateFields
    | BlankField
    | MissingField(field: string)
    | NotJson

  /** The characters Python's `str.strip` removes. */
  predicate IsSpace(c: char) {
    var n := c as int;
    || 9 <= n <= 13 || 28 <= n <= 32 || n == 0x85 || n == 0xa0 || n == 0x1680
    || 0x2000 <= n <= 0x200a || n == 0x2028 || n == 0x2029 || n == 0x202f || n == 0x205f || n == 0x3000
  }

  predicate Blank(s: string) { forall i | 0 <= i < |s| :: IsSpace(s[i]) }

  function MaterialError(tool: string, fields: seq<string>): Option<KeyError> {
    if Blank(tool) then Some(BlankToolName)
    else if fields == [] then Some(NoFields)
    else if !Distinct(fields) then Some(DuplicateFields)
    else if exists i | 0 <= i < |fields| :: Blank(fields[i]) then Some(BlankField)
    else None
  }

  /** The first selected field the arguments do not have. */
  function FirstMissing(args: seq<Member>, fields: seq<string>): (r: Option<string>)
    ensures r.None? <==> forall i | 0 <= i < |fields| :: HasKey(args, fields[i])
    ensures r.Some? ==> r.value in fields && !HasKey(args, r.value)
  {
    if fields == [] then None
    else if !HasKey(args, fields[0]) then Some(fields[0])
    else
      var r := FirstMissing(args, fields[1..]);
      assert fields == [fields[0]] + fields[1..];
      r
  }

  function Selected(args: seq<Member>, fields: seq<string>): seq<Member>
    requires forall i | 0 <= i < |fields| :: HasKey(args, fields[i])
  {
    seq(|fields|, i requires 0 <= i < |fields| => Member(fields[i], Get(args, fields[i]).value))
  }

  function FieldList(fields: seq<string>): Value {
    Arr(seq(|fields|, i requires 0 <= i < |fields| => Str(fields[i])))
  }

  function Material(tool: string, selected: seq<Member>, fields: seq<string>): Value {
    Obj([Member("fields", FieldList(fields)), Member("tool_name", Str(tool)),
         Member("values", Obj(selected)), Member("version", Int(1))])
  }

  function KeyOf(tool: string, text: string, digest: string -> string): string {
    KEY_PREFIX + ":" + tool + ":" + digest(text)
  }

  /** What `create_key` returns or raises. */
  function Key(tool: string, args: seq<Member>, fields: seq<string>, digest: string -> string)
    : Result<string, KeyError>
  {
    match MaterialError(tool, fields)
    case Some(e) => Err(e)
    case None =>
      match FirstMissing(args, fields)
      case Some(f) => Err(MissingField(f))
      case None =>
        match Dumps(Material(tool, Selected(args, fields), fields))
        case Err(_) => Err(NotJson)
        case Ok(text) => Ok(KeyOf(tool, text, digest))
  }

  method CreateKey(tool: string, args: seq<Member>, fields: seq<string>, digest: string -> string)
    returns (r: Result<string, KeyError>)
    ensures r == Key(tool, args, fields, digest)
  {
    var invalid := MaterialError(tool, fields);
    if invalid.Some? { return Err(invalid.value); }
    var selected: seq<Member> := [];
    for i := 0 to |fields|
      invariant forall j | 0 <= j < i :: HasKey(args, fields[j])
      invariant selected == Selected(args, fields[..i])
    {
      if !HasKey(args, fields[i]) {
        FirstMissingAt(args, fields, i);
        return Err(MissingField(fields[i]));
      }
      selected := selected + [Member(fields[i], Get(args, fields[i]).value)];
    }
    assert fields[..|fields|] == fields;
    var canonical := Dumps(Material(tool, selected, fields));
    match canonical
    case Err(_) => return Err(NotJson);
    case Ok(text) => return Ok(KeyOf(tool, text, digest));
  }

  lemma {:induction false} FirstMissingAt(args: seq<Member>, fields: seq<string>, i: nat)
    requires i < |fields| && !HasKey(args, fields[i]) && forall j | 0 <= j < i :: HasKey(args, fields[j])
    ensures FirstMissing(args, fields) == Some(fields[i])
  {
    if i > 0 { FirstMissingAt(args, fields[1..], i - 1); }
  }

  // ---------- errors and keys, spelled out ----------

  /** The blank characters, one by one. */
  lemma SpacesSpelled(c: char)
    ensures IsSpace(c)
       <==> (|| c in "\t\n\U{000B}\U{000C}\r\U{001C}\U{001D}\U{001E}\U{001F} \U{0085}\U{00A0}\U{1680}"
             || c in "\U{2000}\U{2001}\U{2002}\U{2003}\U{2004}\U{2005}\U{2006}\U{2007}\U{2008}\U{2009}\U{200A}"
             || c in "\U{2028}\U{2029}\U{202F}\U{205F}\U{3000}")
  {
  }

  lemma BlankMeans(s: string)
    ensures Blank(s) <==> forall i | 0 <= i < |s| :: IsSpace(s[i])
  {
  }

  /** The first of these that is wrong is the error: a blank tool name, no field, a field named
      twice, a blank field name, a field the arguments do not have. */
  lemma ErrorsInOrder(tool: string, args: seq<Member>, fields: seq<string>, digest: string -> string)
    ensures var key := Key(tool, args, fields, digest);
      var twice := exists i, j :: 0 <= i < j < |fields| && fields[i] == fields[j];
      var blank := exists i :: 0 <= i < |fields| && Blank(fields[i]);
      var missing := exists i :: 0 <= i < |fields| && !HasKey(args, fields[i]);
      && (key == Err(BlankToolName) <==> Blank(tool))
      && (key == Err(NoFields) <==> !Blank(tool) && fields == [])
      && (key == Err(DuplicateFields) <==> !Blank(tool) && twice)
      && (key == Err(BlankField) <==> !Blank(tool) && !twice && blank)
      && (key.Err? && key.error.MissingField? <==> !Blank(tool) && !twice && !blank && missing)
  {
    MaterialErrorIs(tool, fields);
  }

  lemma MaterialErrorIs(tool: string, fields: seq<string>)
    ensures var twice := exists i, j :: 0 <= i < j < |fields| && fields[i] == fields[j];
      var blank := exists i :: 0 <= i < |fields| && Blank(fields[i]);
      MaterialError(tool, fields)
      == if Blank(tool) then Some(BlankToolName) else if fields == [] then Some(NoFields)
         else if twice then Some(DuplicateFields) else if blank then Some(BlankField) else None
  {
  }

  /** The missing field named is the first. */
  lemma MissingIsFirst(tool: string, args: seq<Member>, fields: seq<string>, digest: string -> string, i: nat)
    requires MaterialError(tool, fields).None? && i < |fields|
    requires !HasKey(args, fields[i]) && forall j | 0 <= j < i :: HasKey(args, fields[j])
    ensures Key(tool, args, fields, digest) == Err(MissingField(fields[i]))
  {
    FirstMissingAt(args, fields, i);
  }

  /** A key is the version, the tool and the digest of the canonical text. */
  lemma KeySpelled(tool: string, args: seq<Member>, fields: seq<string>, digest: string -> string)
    requires Key(tool, args, fields, digest).Ok?
    ensures FirstMissing(args, fields).None?
    ensures var text := Dumps(KeyMaterial(tool, args, fields));
      text.Ok? && Key(tool, args, fields, digest).value == "agentactum:v1:" + tool + ":" + digest(text.value)
  {
    assert "agentactum:v1" + ":" == "agentactum:v1:";
  }

  // ---------- what a key identifies ----------

  /** A call for which `create_key` returns a key. */
  ghost predicate Keyable(tool: string, args: seq<Member>, fields: seq<string>) {
    && WellFormed(Obj(args))
    && MaterialError(tool, fields).None?
    && FirstMissing(args, fields).None?
    && forall i | 0 <= i < |fields| :: IsJson(Get(args, fields[i]).value)
  }

  function KeyMaterial(tool: string, args: seq<Member>, fields: seq<string>): Value
    requires forall i | 0 <= i < |fields| :: HasKey(args, fields[i])
  {
    Material(tool, Selected(args, fields), fields)
  }

  /** The selected values agree up to the order of object members. */
  ghost predicate SameSelection(args: seq<Member>, args': seq<Member>, fields: seq<string>) {
    forall i | 0 <= i < |fields| ::
      Get(args, fields[i]).Some? && Get(args', fields[i]).Some?
      && Same(Get(args, fields[i]).value, Get(args', fields[i]).value)
  }

  lemma ArgumentWellFormed(args: seq<Member>, f: string)
    requires WellFormed(Obj(args)) && HasKey(args, f)
    ensures WellFormed(Get(args, f).value)
  {
    var i :| 0 <= i < |args| && args[i] == Member(f, Get(args, f).value);
  }

  lemma MaterialParts(tool: string, selected: seq<Member>, fields: seq<string>)
    ensures WellFormed(Material(tool, selected, fields)) <==> WellFormed(Obj(selected))
    ensures IsJson(Material(tool, selected, fields)) <==> IsJson(Obj(selected))
    ensures Unique(Material(tool, selected, fields).members)
  {
    FourKeys();
    var ms := Material(tool, selected, fields).members;
    assert forall i | 0 <= i < |fields| :: FieldList(fields).items[i] == Str(fields[i]);
    assert WellFormed(ms[0].val) && WellFormed(ms[1].val) && WellFormed(ms[3].val);
    assert IsJson(ms[0].val) && IsJson(ms[1].val) && IsJson(ms[3].val);
    assert ms[2].val == Obj(selected);
  }

  lemma MaterialWellFormed(tool: string, args: seq<Member>, fields: seq<string>)
    requires Keyable(tool, args, fields)
    ensures WellFormed(KeyMaterial(tool, args, fields)) && IsJson(KeyMaterial(tool, args, fields))
    ensures Unique(Selected(args, fields))
  {
    var s := Selected(args, fields);
    forall i | 0 <= i < |s| ensures WellFormed(s[i].val) && IsJson(s[i].val) {
      ArgumentWellFormed(args, fields[i]);
    }
    MaterialParts(tool, s, fields);
  }

  lemma FourKeys()
    ensures "fields" != "tool_name" && "fields" != "values" && "fields" != "version"
    ensures "tool_name" != "values" && "tool_name" != "version" && "values" != "version"
  {
    assert "values"[1] != "version"[1];
    assert "fields"[0] != "tool_name"[0] && "fields"[0] != "values"[0] && "tool_name"[0] != "values"[0];
    assert "version"[0] == 'v';
  }

  lemma SameAligned(ms: seq<Member>, ns: seq<Member>)
    requires |ms| == |ns| && Unique(ns) && forall i | 0 <= i < |ms| :: ms[i].key == ns[i].key
    ensures Same(Obj(ms), Obj(ns)) <==> forall i | 0 <= i < |ms| :: Same(ms[i].val, ns[i].val)
  {
    assert Keys(ms) == Keys(ns) by {
      forall i | 0 <= i < |ms| ensures ms[i].key in Keys(ns) && ns[i].key in Keys(ms) { assert ms[i].key == ns[i].key; }
    }
    forall i | 0 <= i < |ms| ensures Get(ns, ms[i].key) == Some(ns[i].val) { GetAt(ns, i); }
  }

  lemma SameFieldLists(fields: seq<string>, fields': seq<string>)
    ensures Same(FieldList(fields), FieldList(fields')) <==> fields == fields'
  {
    var a, b := FieldList(fields).items, FieldList(fields').items;
    if |a| == |b| {
      forall i | 0 <= i < |a| ensures Same(a[i], b[i]) <==> fields[i] == fields'[i] {}
    }
  }

  lemma FourAligned(ms: seq<Member>, ns: seq<Member>)
    requires |ms| == |ns| == 4 && Unique(ns) && forall i | 0 <= i < 4 :: ms[i].key == ns[i].key
    ensures Same(Obj(ms), Obj(ns))
       <==> (&& Same(ms[0].val, ns[0].val) && Same(ms[1].val, ns[1].val)
             && Same(ms[2].val, ns[2].val) && Same(ms[3].val, ns[3].val))
  {
    SameAligned(ms, ns);
  }

  lemma MaterialMembers(tool: string, s: seq<Member>, fields: seq<string>)
    ensures var ms := Material(tool, s, fields).members;
      && |ms| == 4
      && ms[0].val == FieldList(fields) && ms[1].val == Str(tool) && ms[2].val == Obj(s) && ms[3].val == Int(1)
      && ms[0].key == "fields" && ms[1].key == "tool_name" && ms[2].key == "values" && ms[3].key == "version"
  {
  }

  lemma SameMaterialParts(tool: string, s: seq<Member>, fields: seq<string>,
                          tool': string, s': seq<Member>, fields': seq<string>)
    ensures Same(Material(tool, s, fields), Material(tool', s', fields'))
       <==> tool == tool' && fields == fields' && Same(Obj(s), Obj(s'))
  {
    var ms, ns := Material(tool, s, fields).members, Material(tool', s', fields').members;
    MaterialParts(tool', s', fields');
    MaterialMembers(tool, s, fields);
    MaterialMembers(tool', s', fields');
    FourAligned(ms, ns);
    SameFieldLists(fields, fields');
  }

  lemma SameMaterial(tool: string, args: seq<Member>, fields: seq<string>,
                     tool': string, args': seq<Member>, fields': seq<string>)
    requires Keyable(tool, args, fields) && Keyable(tool', args', fields')
    ensures Same(KeyMaterial(tool, args, fields), KeyMaterial(tool', args', fields'))
       <==> tool == tool' && fields == fields' && SameSelection(args, args', fields)
  {
    var s, s' := Selected(args, fields), Selected(args', fields');
    SameMaterialParts(tool, s, fields, tool', s', fields');
    if fields == fields' {
      SameAligned(s, s');
      forall i | 0 <= i < |fields|
        ensures Same(s[i].val, s'[i].val) <==> Same(Get(args, fields[i]).value, Get(args', fields[i]).value)
      {}
    }
  }

  /** The canonical key text is injective: it determines the tool, the field sequence in
      order, and every selected value up to member order, and nothing else affects it. */
  lemma KeyTextInjective(tool: string, args: seq<Member>, fields: seq<string>,
                         tool': string, args': seq<Member>, fields': seq<string>)
    requires Keyable(tool, args, fields) && Keyable(tool', args', fields')
    ensures Dumps(KeyMaterial(tool, args, fields)) == Dumps(KeyMaterial(tool', args', fields'))
       <==> tool == tool' && fields == fields' && SameSelection(args, args', fields)
  {
    MaterialWellFormed(tool, args, fields);
    MaterialWellFormed(tool', args', fields');
    DumpsInjective(KeyMaterial(tool, args, fields), KeyMaterial(tool', args', fields'));
    SameMaterial(tool, args, fields, tool', args', fields');
  }

  /** Exactly the keyable calls get a key. (Arguments are typed as JSON, so they hold nothing
      loose; non-finite numbers and values that are no JSON at all may still turn up.) */
  lemma KeyExists(tool: string, args: seq<Member>, fields: seq<string>, digest: string -> string)
    requires WellFormed(Obj(args))
    ensures !HasLoose(Obj(args)) ==> (Key(tool, args, fields, digest).Ok? <==> Keyable(tool, args, fields))
    ensures Keyable(tool, args, fields) ==>
      Dumps(KeyMaterial(tool, args, fields)).Ok?
      && Key(tool, args, fields, digest) == Ok(KeyOf(tool, Dumps(KeyMaterial(tool, args, fields)).value, digest))
  {
    if Keyable(tool, args, fields) {
      MaterialWellFormed(tool, args, fields);
      LoadsDumps(KeyMaterial(tool, args, fields));
    } else if MaterialError(tool, fields).None? && FirstMissing(args, fields).None? {
      var i :| 0 <= i < |fields| && !IsJson(Get(args, fields[i]).value);
      UnserializableMaterial(tool, args, fields, i);
    }
  }

  lemma UnserializableMaterial(tool: string, args: seq<Member>, fields: seq<string>, i: nat)
    requires WellFormed(Obj(args)) && MaterialError(tool, fields).None? && FirstMissing(args, fields).None?
    requires i < |fields| && !IsJson(Get(args, fields[i]).value)
    ensures Dumps(KeyMaterial(tool, args, fields)).Err?
  {
    var s := Selected(args, fields);
    assert s[i].val == Get(args, fields[i]).value;
    assert !IsJson(Obj(s));
    forall j | 0 <= j < |s| ensures WellFormed(s[j].val) { ArgumentWellFormed(args, fields[j]); }
    MaterialParts(tool, s, fields);
    CanonKeeps(KeyMaterial(tool, args, fields));
  }

  lemma KeySplits(tool: string, d: string, tool': string, d': string)
    requires |d| == |d'|
    requires KEY_PREFIX + ":" + tool + ":" + d == KEY_PREFIX + ":" + tool' + ":" + d'
    ensures tool == tool' && d == d'
  {
    var p, p' := KEY_PREFIX + ":" + tool + ":", KEY_PREFIX + ":" + tool' + ":";
    var k := p + d;
    assert k == p' + d';
    assert |p| == |p'|;
    assert p == k[..|p|] == p' && d == k[|p|..] == d';
    assert tool == p[|KEY_PREFIX| + 1..|p| - 1] == tool';
  }

  /** Two calls get one key exactly when they agree on tool, field sequence and selected
      values, unless the digest itself collides on their two different texts. */
  lemma KeysIdentify(tool: string, args: seq<Member>, fields: seq<string>,
                     tool': string, args': seq<Member>, fields': seq<string>, digest: string -> string)
    requires Keyable(tool, args, fields) && Keyable(tool', args', fields')
    requires forall t: string :: |digest(t)| == 64
    ensures
      var agree := tool == tool' && fields == fields' && SameSelection(args, args', fields);
      var t, t' := Dumps(KeyMaterial(tool, args, fields)), Dumps(KeyMaterial(tool', args', fields'));
      && t.Ok? && t'.Ok?
      && (agree ==> Key(tool, args, fields, digest) == Key(tool', args', fields', digest))
      && (Key(tool, args, fields, digest) == Key(tool', args', fields', digest) ==>
            agree || (t.value != t'.value && digest(t.value) == digest(t'.value)))
  {
    KeyExists(tool, args, fields, digest);
    KeyExists(tool', args', fields', digest);
    KeyTextInjective(tool, args, fields, tool', args', fields');
    var t, t' := Dumps(KeyMaterial(tool, args, fields)).value, Dumps(KeyMaterial(tool', args', fields')).value;
    if Key(tool, args, fields, digest) == Key(tool', args', fields', digest) {
      KeySplits(tool, digest(t), tool', digest(t'));
    }
  }
}
