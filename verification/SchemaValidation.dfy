/** The JSON-schema subset validator of the structured-output module. */
module SchemaValidation {
  import opened Common

  /** Parsed JSON, as Python values. */
  datatype Value =
    | Null
    | Bool(b: bool)
    | Int(n: int)
    | Float(x: real)
    | Str(s: string)
    | List(items: seq<Value>)
    | Dict(entries: map<string, Value>)

  /** The keys the validator reads. `kind` is "" when the schema names no type;
      a property whose schema is not a mapping is `None`. */
  datatype Schema = Schema(
    kind: string,
    choices: Option<seq<Value>>,
    required: Option<seq<string>>,
    properties: Option<seq<(string, Option<Schema>)>>,
    items: Option<Schema>)

  datatype Segment = Key(name: string) | Index(i: nat)

  type Path = seq<Segment>

  datatype SchemaError =
    | Expected(path: Path, kind: string)
    | NotInEnum(path: Path)
    | MissingKey(path: Path, key: string)

  class ErrorLog {
    var entries: seq<SchemaError>

    constructor ()
      ensures entries == []
    {
      entries := [];
    }
  }

  // ---------- Python's notions ----------

  predicate IsNumber(v: Value) { v.Bool? || v.Int? || v.Float? }

  function Number(v: Value): real
    requires IsNumber(v)
  {
    match v
    case Bool(b) => if b then 1.0 else 0.0
    case Int(n) => n as real
    case Float(x) => x
  }

  /** Python's `==`: numbers of all three kinds compare by value, so `True == 1`. */
  predicate PyEq(a: Value, b: Value) {
    if IsNumber(a) && IsNumber(b) then Number(a) == Number(b)
    else
      match a
      case List(xs) => b.List? && |xs| == |b.items| && forall i | 0 <= i < |xs| :: PyEq(xs[i], b.items[i])
      case Dict(m) => b.Dict? && m.Keys == b.entries.Keys && forall k | k in m :: PyEq(m[k], b.entries[k])
      case _ => a == b
  }

  predicate AmongChoices(v: Value, choices: seq<Value>) {
    exists c | c in choices :: PyEq(v, c)
  }

  predicate MatchesJsonType(v: Value, kind: string) {
    match kind
    case "object" => v.Dict?
    case "array" => v.List?
    case "string" => v.Str?
    case "number" => v.Int? || v.Float?
    case "integer" => v.Int?
    case "boolean" => v.Bool?
    case "null" => v.Null?
    case _ => true
  }

  // ---------- The errors a value draws ----------

  function ErrorsOf(v: Value, s: Schema, path: Path): seq<SchemaError>
    decreases v, 2, 0
  {
    if s.kind != "" && !MatchesJsonType(v, s.kind) then [Expected(path, s.kind)]
    else ChoiceErrors(v, s, path) + ChildErrors(v, s, path)
  }

  function ChoiceErrors(v: Value, s: Schema, path: Path): seq<SchemaError> {
    if s.choices.Some? && !AmongChoices(v, s.choices.value) then [NotInEnum(path)] else []
  }

  function ChildErrors(v: Value, s: Schema, path: Path): seq<SchemaError>
    decreases v, 1, 0
  {
    if v.Dict? then
      (if s.required.Some? then MissingErrors(v, s.required.value, path) else [])
      + (if s.properties.Some? then PropertyErrors(v, s.properties.value, path) else [])
    else if v.List? && s.items.Some? then ItemErrors(v, s.items.value, path, |v.items|)
    else []
  }

  function MissingErrors(v: Value, required: seq<string>, path: Path): seq<SchemaError>
    requires v.Dict?
  {
    if required == [] then []
    else
      var (rest, k) := (required[..|required| - 1], required[|required| - 1]);
      MissingErrors(v, rest, path) + if k in v.entries then [] else [MissingKey(path, k)]
  }

  function PropertyErrors(v: Value, properties: seq<(string, Option<Schema>)>, path: Path): seq<SchemaError>
    requires v.Dict?
    decreases v, 0, |properties|
  {
    if properties == [] then []
    else
      var (rest, p) := (properties[..|properties| - 1], properties[|properties| - 1]);
      PropertyErrors(v, rest, path)
      + if p.0 in v.entries && p.1.Some? then ErrorsOf(v.entries[p.0], p.1.value, path + [Key(p.0)]) else []
  }

  /** Errors of the first `n` items. */
  function ItemErrors(v: Value, s: Schema, path: Path, n: nat): seq<SchemaError>
    requires v.List? && n <= |v.items|
    decreases v, 0, n
  {
    if n == 0 then []
    else ItemErrors(v, s, path, n - 1) + ErrorsOf(v.items[n - 1], s, path + [Index(n - 1)])
  }

  method ValidateSchemaNode(value: Value, schema: Schema, path: Path, errors: ErrorLog)
    modifies errors
    ensures errors.entries == old(errors.entries) + ErrorsOf(value, schema, path)
    decreases value, 2
  {
    if schema.kind != "" && !MatchesJsonType(value, schema.kind) {
      errors.entries := errors.entries + [Expected(path, schema.kind)];
      return;
    }
    if schema.choices.Some? && !AmongChoices(value, schema.choices.value) {
      errors.entries := errors.entries + [NotInEnum(path)];
    }
    ValidateChildren(value, schema, path, errors);
  }

  method ValidateChildren(value: Value, schema: Schema, path: Path, errors: ErrorLog)
    modifies errors
    ensures errors.entries == old(errors.entries) + ChildErrors(value, schema, path)
    decreases value, 1
  {
    if value.Dict? {
      if schema.required.Some? {
        CheckRequired(value, schema.required.value, path, errors);
      }
      if schema.properties.Some? {
        CheckProperties(value, schema.properties.value, path, errors);
      }
    } else if value.List? {
      if schema.items.Some? {
        CheckItems(value, schema.items.value, path, errors);
      }
    }
  }

  // The loops of the node check.

  method CheckRequired(value: Value, required: seq<string>, path: Path, errors: ErrorLog)
    requires value.Dict?
    modifies errors
    ensures errors.entries == old(errors.entries) + MissingErrors(value, required, path)
  {
    for k := 0 to |required|
      invariant errors.entries == old(errors.entries) + MissingErrors(value, required[..k], path)
    {
      assert required[..k + 1][..k] == required[..k];
      if required[k] !in value.entries {
        errors.entries := errors.entries + [MissingKey(path, required[k])];
      }
    }
    assert required[..|required|] == required;
  }

  method CheckProperties(value: Value, properties: seq<(string, Option<Schema>)>, path: Path, errors: ErrorLog)
    requires value.Dict?
    modifies errors
    ensures errors.entries == old(errors.entries) + PropertyErrors(value, properties, path)
    decreases value, 0
  {
    hide ErrorsOf, ChildErrors, ItemErrors;
    for k := 0 to |properties|
      invariant errors.entries == old(errors.entries) + PropertyErrors(value, properties[..k], path)
    {
      assert properties[..k + 1][..k] == properties[..k];
      var (key, child) := properties[k];
      if key in value.entries && child.Some? {
        ValidateSchemaNode(value.entries[key], child.value, path + [Key(key)], errors);
      }
    }
    assert properties[..|properties|] == properties;
  }

  method CheckItems(value: Value, schema: Schema, path: Path, errors: ErrorLog)
    requires value.List?
    modifies errors
    ensures errors.entries == old(errors.entries) + ItemErrors(value, schema, path, |value.items|)
    decreases value, 0
  {
    hide ErrorsOf, ChildErrors, PropertyErrors;
    for k := 0 to |value.items|
      invariant errors.entries == old(errors.entries) + ItemErrors(value, schema, path, k)
    {
      ValidateSchemaNode(value.items[k], schema, path + [Index(k)], errors);
    }
  }

  method ValidateJsonSchema(data: Value, schema: Option<Schema>) returns (valid: bool, errors: seq<SchemaError>)
    ensures valid <==> schema.None? || Conforms(data, schema.value)
    ensures errors == if schema.None? then [] else ErrorsOf(data, schema.value, [])
  {
    if schema.None? {
      return true, [];
    }
    var log := new ErrorLog();
    ValidateSchemaNode(data, schema.value, [], log);
    NoErrorsIffConforms(data, schema.value, []);
    return log.entries == [], log.entries;
  }

  // ---------- Conformance, defined apart from the validator ----------

  /** The seven types of JSON schema: a boolean is no number, an integer is one, and a
      name that is none of the seven says nothing. */
  predicate HasType(v: Value, kind: string) {
    && (v.Null? ==> kind !in {"object", "array", "string", "number", "integer", "boolean"})
    && (v.Bool? ==> kind !in {"object", "array", "string", "number", "integer", "null"})
    && (v.Int? ==> kind !in {"object", "array", "string", "boolean", "null"})
    && (v.Float? ==> kind !in {"object", "array", "string", "integer", "boolean", "null"})
    && (v.Str? ==> kind !in {"object", "array", "number", "integer", "boolean", "null"})
    && (v.List? ==> kind !in {"object", "string", "number", "integer", "boolean", "null"})
    && (v.Dict? ==> kind !in {"array", "string", "number", "integer", "boolean", "null"})
  }

  /** The value with every number, true and false among them, spelled as a float:
      Python's equality is equality of these. */
  ghost function Spelled(v: Value): Value {
    match v
    case Bool(true) => Float(1.0)
    case Bool(false) => Float(0.0)
    case Int(n) => Float(n as real)
    case List(xs) => List(seq(|xs|, i requires 0 <= i < |xs| => Spelled(xs[i])))
    case Dict(m) => Dict(map k | k in m :: Spelled(m[k]))
    case _ => v
  }

  lemma {:induction false} PyEqMeans(a: Value, b: Value)
    ensures PyEq(a, b) <==> Spelled(a) == Spelled(b)
    decreases a
  {
    if a.List? && b.List? {
      SpelledList(a, b);
      if |a.items| == |b.items| {
        forall i | 0 <= i < |a.items|
          ensures PyEq(a.items[i], b.items[i]) <==> Spelled(a.items[i]) == Spelled(b.items[i])
        {
          PyEqMeans(a.items[i], b.items[i]);
        }
      }
    } else if a.Dict? && b.Dict? {
      SpelledDict(a, b);
      if a.entries.Keys == b.entries.Keys {
        forall k | k in a.entries
          ensures PyEq(a.entries[k], b.entries[k]) <==> Spelled(a.entries[k]) == Spelled(b.entries[k])
        {
          PyEqMeans(a.entries[k], b.entries[k]);
        }
      }
    }
  }

  lemma SpelledList(a: Value, b: Value)
    requires a.List? && b.List?
    ensures Spelled(a) == Spelled(b) <==>
              |a.items| == |b.items| && forall i | 0 <= i < |a.items| :: Spelled(a.items[i]) == Spelled(b.items[i])
  {
    var (xs, ys) := (Spelled(a).items, Spelled(b).items);
    assert |xs| == |a.items| && |ys| == |b.items|;
    assert forall i | 0 <= i < |a.items| :: xs[i] == Spelled(a.items[i]);
    assert forall i | 0 <= i < |b.items| :: ys[i] == Spelled(b.items[i]);
  }

  lemma SpelledDict(a: Value, b: Value)
    requires a.Dict? && b.Dict?
    ensures Spelled(a) == Spelled(b) <==>
              a.entries.Keys == b.entries.Keys
              && forall k | k in a.entries :: Spelled(a.entries[k]) == Spelled(b.entries[k])
  {
    var (m, n) := (Spelled(a).entries, Spelled(b).entries);
    assert m.Keys == a.entries.Keys && n.Keys == b.entries.Keys;
    assert forall k | k in a.entries :: m[k] == Spelled(a.entries[k]);
    assert forall k | k in b.entries :: n[k] == Spelled(b.entries[k]);
  }

  ghost predicate Conforms(v: Value, s: Schema)
    decreases v
  {
    && HasType(v, s.kind)
    && (s.choices.Some? ==> exists c :: c in s.choices.value && Spelled(v) == Spelled(c))
    && (v.Dict? && s.required.Some? ==> forall k :: k in s.required.value ==> k in v.entries)
    && (v.Dict? && s.properties.Some? ==>
          forall p :: p in s.properties.value && p.1.Some? && p.0 in v.entries ==> Conforms(v.entries[p.0], p.1.value))
    && (v.List? && s.items.Some? ==>
          forall i :: 0 <= i < |v.items| ==> Conforms(v.items[i], s.items.value))
  }

  lemma TypeMeans(v: Value, kind: string)
    ensures HasType(v, kind) <==> kind == "" || MatchesJsonType(v, kind)
  {
  }

  /** A schema that names a type and nothing else. */
  lemma TypeDecides(v: Value, kind: string)
    ensures Conforms(v, Schema(kind, None, None, None, None)) <==>
              && (kind == "object" ==> v.Dict?) && (kind == "array" ==> v.List?) && (kind == "string" ==> v.Str?)
              && (kind == "number" ==> v.Int? || v.Float?) && (kind == "integer" ==> v.Int?)
              && (kind == "boolean" ==> v.Bool?) && (kind == "null" ==> v.Null?)
  {
  }

  lemma ChoicesMean(v: Value, choices: seq<Value>)
    ensures AmongChoices(v, choices) <==> exists c :: c in choices && Spelled(v) == Spelled(c)
  {
    hide PyEq, Spelled;
    forall c { PyEqMeans(v, c); }
  }

  /** The error list is empty exactly for conforming values. */
  lemma {:induction false} NoErrorsIffConforms(v: Value, s: Schema, path: Path)
    ensures ErrorsOf(v, s, path) == [] <==> Conforms(v, s)
    decreases v, 2, 0
  {
    hide MatchesJsonType, HasType, PyEq, Spelled, MissingErrors, PropertyErrors, ItemErrors;
    TypeMeans(v, s.kind);
    if s.choices.Some? { ChoicesMean(v, s.choices.value); }
    if v.Dict? && s.required.Some? { NoneMissing(v, s.required.value, path); }
    if v.Dict? && s.properties.Some? { NoPropertyErrors(v, s.properties.value, path); }
    if v.List? && s.items.Some? { NoItemErrors(v, s.items.value, path, |v.items|); }
  }

  lemma {:induction false} NoneMissing(v: Value, required: seq<string>, path: Path)
    requires v.Dict?
    ensures MissingErrors(v, required, path) == [] <==> forall k :: k in required ==> k in v.entries
  {
    if required != [] {
      var (rest, k) := (required[..|required| - 1], required[|required| - 1]);
      NoneMissing(v, rest, path);
      assert required == rest + [k];
    }
  }

  lemma {:induction false} NoPropertyErrors(v: Value, properties: seq<(string, Option<Schema>)>, path: Path)
    requires v.Dict?
    ensures PropertyErrors(v, properties, path) == []
       <==> forall p :: p in properties && p.1.Some? && p.0 in v.entries ==> Conforms(v.entries[p.0], p.1.value)
    decreases v, 0, |properties|
  {
    hide ErrorsOf, ChildErrors, ItemErrors, Conforms;
    if properties != [] {
      var (rest, p) := (properties[..|properties| - 1], properties[|properties| - 1]);
      NoPropertyErrors(v, rest, path);
      if p.0 in v.entries && p.1.Some? { NoErrorsIffConforms(v.entries[p.0], p.1.value, path + [Key(p.0)]); }
      assert properties == rest + [p];
    }
  }

  lemma {:induction false} NoItemErrors(v: Value, s: Schema, path: Path, n: nat)
    requires v.List? && n <= |v.items|
    ensures ItemErrors(v, s, path, n) == [] <==> forall i :: 0 <= i < n ==> Conforms(v.items[i], s)
    decreases v, 0, n
  {
    hide ErrorsOf, ChildErrors, PropertyErrors, Conforms;
    if n > 0 {
      NoItemErrors(v, s, path, n - 1);
      NoErrorsIffConforms(v.items[n - 1], s, path + [Index(n - 1)]);
    }
  }

  // ---------- Every error names a real violation ----------

  /** `rel` leads from `v` under `s` to `w` under `t`. */
  ghost predicate Leads(v: Value, s: Schema, rel: Path, w: Value, t: Schema)
    decreases |rel|
  {
    if rel == [] then w == v && t == s
    else
      match rel[0]
      case Key(k) =>
        && v.Dict? && k in v.entries && s.properties.Some?
        && exists child :: (k, Some(child)) in s.properties.value && Leads(v.entries[k], child, rel[1..], w, t)
      case Index(i) =>
        && v.List? && i < |v.items| && s.items.Some?
        && Leads(v.items[i], s.items.value, rel[1..], w, t)
  }

  ghost predicate Violates(e: SchemaError, w: Value, t: Schema) {
    match e
    case Expected(_, kind) => kind == t.kind && !HasType(w, kind)
    case NotInEnum(_) => t.choices.Some? && forall c | c in t.choices.value :: Spelled(w) != Spelled(c)
    case MissingKey(_, k) => w.Dict? && t.required.Some? && k in t.required.value && k !in w.entries
  }

  /** The error's path, read from `path` on, ends at a value its schema rejects on the spot. */
  ghost predicate Real(e: SchemaError, v: Value, s: Schema, path: Path) {
    && path <= e.path
    && exists w, t :: Leads(v, s, e.path[|path|..], w, t) && Violates(e, w, t)
  }

  lemma {:induction false} ErrorsAreReal(v: Value, s: Schema, path: Path, e: SchemaError)
    requires e in ErrorsOf(v, s, path)
    ensures Real(e, v, s, path)
    decreases v, 2, 0
  {
    hide HasType, MatchesJsonType, PyEq, Spelled;
    assert path[|path|..] == [];
    assert Leads(v, s, [], v, s);
    TypeMeans(v, s.kind);
    if s.choices.Some? { ChoicesMean(v, s.choices.value); }
    if Violates(e, v, s) && e.path == path {
    } else if v.Dict? && s.required.Some? && e in MissingErrors(v, s.required.value, path) {
      MissingErrorsAreReal(v, s.required.value, path, e);
    } else if v.Dict? {
      PropertyErrorsAreReal(v, s, s.properties.value, path, e);
    } else {
      ItemErrorsAreReal(v, s, path, |v.items|, e);
    }
  }

  lemma {:induction false} MissingErrorsAreReal(v: Value, required: seq<string>, path: Path, e: SchemaError)
    requires v.Dict? && e in MissingErrors(v, required, path)
    ensures e.MissingKey? && e.path == path && e.key in required && e.key !in v.entries
  {
    var (rest, k) := (required[..|required| - 1], required[|required| - 1]);
    if e in MissingErrors(v, rest, path) { MissingErrorsAreReal(v, rest, path, e); }
  }

  lemma {:induction false} PropertyErrorsAreReal(
    v: Value, s: Schema, properties: seq<(string, Option<Schema>)>, path: Path, e: SchemaError)
    requires v.Dict? && s.properties.Some? && e in PropertyErrors(v, properties, path)
    requires forall p | p in properties :: p in s.properties.value
    ensures Real(e, v, s, path)
    decreases v, 0, |properties|
  {
    var (rest, p) := (properties[..|properties| - 1], properties[|properties| - 1]);
    assert p in properties;
    if e in PropertyErrors(v, rest, path) {
      PropertyErrorsAreReal(v, s, rest, path, e);
    } else {
      ErrorsAreReal(v.entries[p.0], p.1.value, path + [Key(p.0)], e);
      Descend(v, s, path, Key(p.0), v.entries[p.0], p.1.value, e);
    }
  }

  lemma {:induction false} ItemErrorsAreReal(v: Value, s: Schema, path: Path, n: nat, e: SchemaError)
    requires v.List? && n <= |v.items| && s.items.Some? && e in ItemErrors(v, s.items.value, path, n)
    ensures Real(e, v, s, path)
    decreases v, 0, n
  {
    if e in ItemErrors(v, s.items.value, path, n - 1) {
      ItemErrorsAreReal(v, s, path, n - 1, e);
    } else {
      ErrorsAreReal(v.items[n - 1], s.items.value, path + [Index(n - 1)], e);
      Descend(v, s, path, Index(n - 1), v.items[n - 1], s.items.value, e);
    }
  }

  /** A violation below one path segment is a violation below the whole. */
  lemma Descend(v: Value, s: Schema, path: Path, seg: Segment, child: Value, childSchema: Schema, e: SchemaError)
    requires Real(e, child, childSchema, path + [seg])
    requires match seg
             case Key(k) => v.Dict? && k in v.entries && v.entries[k] == child
                            && s.properties.Some? && (k, Some(childSchema)) in s.properties.value
             case Index(i) => v.List? && i < |v.items| && v.items[i] == child && s.items == Some(childSchema)
    ensures Real(e, v, s, path)
  {
    var below := e.path[|path| + 1..];
    var w, t :| Leads(child, childSchema, below, w, t) && Violates(e, w, t);
    var rel := e.path[|path|..];
    assert (path + [seg])[|path|] == seg;
    assert rel[0] == seg && rel[1..] == below;
    assert Leads(v, s, rel, w, t);
  }
}
