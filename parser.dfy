/** The value-to-schema inference of parser.go.

    The schema of a value is first given as a reference definition
    (`SchemaOf`, with `StructSchema` and `MapSchema` for its two map-building
    cases).  The Go functions themselves follow: the pure ones as functions,
    and `parse`, `parseStruct`, `parseMap`, `parseInterface` and `parsePrt`,
    which recurse through the loops that fill a fresh map, as methods proved
    to compute the reference definition. */
module Parser {
  import opened Values

  /** The type string of the well-known timestamp type. */
  const TimeStringKind: string := "time.Time"

  /** The label every timestamp value, and every nil pointer to one, gets. */
  const DateTime: string := "DateTime"

  /** `isTime`: the type prints as `time.Time` or as a pointer to it. */
  function IsTime(typeName: string): (r: bool)
    ensures r <==> typeName == "time.Time" || typeName == "*time.Time"
  {
    typeName == TimeStringKind || typeName == "*" + TimeStringKind
  }

  /** `exportedField`: the first character of the name is an upper-case letter
      (ASCII letters only in this model). */
  predicate Exported(name: string)
    requires name != []
  {
    'A' <= name[0] <= 'Z'
  }

  /** The names `Exported` accepts are those starting with one of the 26 ASCII
      upper-case letters. */
  lemma ExportedIsAsciiUpper(name: string)
    requires name != []
    ensures Exported(name) <==> name[0] in "ABCDEFGHIJKLMNOPQRSTUVWXYZ"
  {
  }

  /** `parseNil`: the schema of a nil pointer, from its static type alone. */
  function ParseNil(typeName: string): (r: Schema)
    ensures r.Label?
    ensures IsTime(typeName) ==> r.text == DateTime
    ensures !IsTime(typeName) ==> r.text == typeName
  {
    if IsTime(typeName) then Label(DateTime) else Label(typeName)
  }

  /** `parseSlice`: the element type of a slice; the elements are not looked at. */
  function ParseSlice(v: Value): (r: string)
    requires v.Slice?
    ensures r == v.elemType
  {
    v.elemType
  }

  /** The values `parse` handles without panicking: no nil interface is ever
      unwrapped and every field name of an inspected struct is non-empty.
      Slice elements, the fields of a timestamp and the values of unexported
      fields are never inspected, so nothing is demanded of them. */
  predicate Parsable(v: Value)
    decreases v, 1
  {
    match v
    case Prim(_) => true
    case Struct(t, _) => IsTime(t) || FieldsParsable(v)
    case Iface(held) => held.Some? && Parsable(held.value)
    case Ptr(_, target) => target.None? || Parsable(target.value)
    case MapV(es) => forall k :: k in es ==> Parsable(es[k])
    case Slice(_, _) => true
  }

  /** Every field name is non-empty and every exported field is parsable. */
  predicate FieldsParsable(v: Value)
    requires v.Struct?
    decreases v, 0
  {
    forall i :: 0 <= i < |v.fields| ==>
      v.fields[i].name != [] && (Exported(v.fields[i].name) ==> Parsable(v.fields[i].value))
  }

  /** The names of the exported fields. */
  function ExportedNames(fs: seq<Field>): set<string>
    requires forall i :: 0 <= i < |fs| ==> fs[i].name != []
  {
    set i | 0 <= i < |fs| && Exported(fs[i].name) :: fs[i].name
  }

  /** The names of all fields, exported or not. */
  function Names(fs: seq<Field>): set<string>
  {
    set i | 0 <= i < |fs| :: fs[i].name
  }

  /** The position of the last field called `n`: the one whose value a
      left-to-right loop of `m[name] = ...` assignments leaves in the map. */
  function LastIndex(fs: seq<Field>, n: string): (j: nat)
    requires n in Names(fs)
    ensures j < |fs| && fs[j].name == n
    ensures forall k :: j < k < |fs| ==> fs[k].name != n
  {
    if fs[|fs| - 1].name == n then |fs| - 1
    else
      var i :| 0 <= i < |fs| && fs[i].name == n;
      assert fs[..|fs| - 1][i].name == n;
      LastIndex(fs[..|fs| - 1], n)
  }

  /** Reference definition of the schema of a value (`parse`). */
  function SchemaOf(v: Value): (r: Schema)
    requires Parsable(v)
    decreases v, 1
    ensures v.Prim? ==> r == Label(v.typeName)
    ensures v.Struct? && IsTime(v.typeName) ==> r == Label(DateTime)
    ensures v.Struct? && !IsTime(v.typeName) ==> r.Obj?
    ensures v.Ptr? && v.target.None? ==> r == ParseNil(v.typeName)
    ensures v.MapV? ==> r.Obj?
    ensures v.Slice? ==> r == Label("[" + v.elemType + "]")
  {
    match v
    case Prim(t) => Label(t)
    case Struct(t, _) => if IsTime(t) then Label(DateTime) else Obj(StructSchema(v))
    case Iface(held) => SchemaOf(held.value)
    case Ptr(t, target) => if target.None? then ParseNil(t) else SchemaOf(target.value)
    case MapV(_) => Obj(MapSchema(v))
    case Slice(_, _) => Label("[" + ParseSlice(v) + "]")
  }

  /** Reference definition of `parseStruct`: each exported field name, mapped to
      the schema of the (last) field of that name. */
  function StructSchema(v: Value): map<string, Schema>
    requires v.Struct? && FieldsParsable(v)
    decreases v, 0
  {
    var fs := v.fields;
    map n | n in ExportedNames(fs) :: SchemaOf(fs[LastIndex(fs, n)].value)
  }

  /** Reference definition of `parseMap`: each key mapped to the schema of its value. */
  function MapSchema(v: Value): map<string, Schema>
    requires v.MapV? && Parsable(v)
    decreases v, 0
  {
    map k | k in v.entries :: SchemaOf(v.entries[k])
  }

  /** `Parse`: `reflect.ValueOf` opens the interface{} argument and hands the
      concrete value to `parse`. */
  method Parse(arg: Value) returns (r: Schema)
    requires arg.Iface? && Parsable(arg)
    ensures r == SchemaOf(arg.held.value)
  {
    var v := arg.held.value;
    r := ParseValue(v);
  }

  /** `parse`: dispatch on the kind of the value. */
  method ParseValue(v: Value) returns (r: Schema)
    requires Parsable(v)
    ensures r == SchemaOf(v)
    decreases v, 1
  {
    match v {
      case Struct(t, _) =>
        if IsTime(t) {
          r := Label(DateTime);
        } else {
          var m := ParseStruct(v);
          r := Obj(m);
        }
      case Iface(_) =>
        r := ParseInterface(v);
      case Ptr(_, _) =>
        r := ParsePtr(v);
      case MapV(_) =>
        var m := ParseMap(v);
        r := Obj(m);
      case Slice(_, _) =>
        r := Label("[" + ParseSlice(v) + "]");
      case Prim(t) =>
        r := Label(t);
    }
  }

  /** `parseStruct`: a fresh map filled field by field, skipping unexported fields. */
  method ParseStruct(v: Value) returns (m: map<string, Schema>)
    requires v.Struct? && FieldsParsable(v)
    ensures m.Keys == ExportedNames(v.fields)
    ensures m == StructSchema(v)
    decreases v, 0
  {
    var fs := v.fields;
    m := map[];
    for i := 0 to |fs|
      invariant BuiltUpTo(v, i, m)
    {
      var field := fs[i];
      StructLoopStep(v, i, m);
      if Exported(field.name) {
        var s := ParseValue(field.value);
        m := m[field.name := s];
      }
    }
    BuiltUpToAll(v, m);
  }

  /** The invariant of `parseStruct`'s loop: after `i` iterations the map holds
      the exported names among the first `i` fields, each with the schema of
      the last of those fields to bear it. */
  ghost predicate BuiltUpTo(v: Value, i: nat, m: map<string, Schema>)
    requires v.Struct? && FieldsParsable(v) && i <= |v.fields|
  {
    var fs := v.fields[..i];
    && m.Keys == ExportedNames(fs)
    && forall n :: n in m ==> m[n] == SchemaOf(v.fields[LastIndex(fs, n)].value)
  }

  /** One iteration of `parseStruct`'s loop keeps its invariant. */
  lemma StructLoopStep(v: Value, i: nat, m: map<string, Schema>)
    requires v.Struct? && FieldsParsable(v) && i < |v.fields| && BuiltUpTo(v, i, m)
    ensures Exported(v.fields[i].name) ==>
      BuiltUpTo(v, i + 1, m[v.fields[i].name := SchemaOf(v.fields[i].value)])
    ensures !Exported(v.fields[i].name) ==> BuiltUpTo(v, i + 1, m)
  {
    var fs := v.fields;
    ExportedNamesStep(fs, i);
    forall n | n in m {
      LastIndexStep(fs, i, n);
    }
    if Exported(fs[i].name) {
      LastIndexStep(fs, i, fs[i].name);
    }
  }

  /** When the loop is done the map is the struct's schema. */
  lemma BuiltUpToAll(v: Value, m: map<string, Schema>)
    requires v.Struct? && FieldsParsable(v) && BuiltUpTo(v, |v.fields|, m)
    ensures m == StructSchema(v)
  {
    assert v.fields[..|v.fields|] == v.fields;
  }

  /** Extending the prefix by one field adds its name when it is exported. */
  lemma ExportedNamesStep(fs: seq<Field>, i: nat)
    requires i < |fs| && forall k :: 0 <= k < |fs| ==> fs[k].name != []
    ensures ExportedNames(fs[..i + 1])
         == ExportedNames(fs[..i]) + (if Exported(fs[i].name) then {fs[i].name} else {})
  {
  }

  /** Extending the prefix by one field changes the last position of a name
      only when the new field bears it. */
  lemma LastIndexStep(fs: seq<Field>, i: nat, n: string)
    requires i < |fs| && n in Names(fs[..i + 1])
    ensures fs[i].name == n ==> LastIndex(fs[..i + 1], n) == i
    ensures fs[i].name != n ==> n in Names(fs[..i]) && LastIndex(fs[..i + 1], n) == LastIndex(fs[..i], n)
  {
  }

  /** `parseInterface`: unwrap one level and parse the held value. */
  method ParseInterface(v: Value) returns (r: Schema)
    requires v.Iface? && Parsable(v)
    ensures r == SchemaOf(v.held.value)
    decreases v, 0
  {
    var field := v.held.value;
    r := ParseValue(field);
  }

  /** `parsePrt`: a nil pointer falls back to its type; any other is transparent. */
  method ParsePtr(v: Value) returns (r: Schema)
    requires v.Ptr? && Parsable(v)
    ensures v.target.None? ==> r == ParseNil(v.typeName)
    ensures v.target.Some? ==> r == SchemaOf(v.target.value)
    decreases v, 0
  {
    if v.target.None? {
      return ParseNil(v.typeName);
    }
    var field := v.target.value;
    r := ParseValue(field);
  }

  /** `parseMap`: a fresh map filled key by key, in whatever order the keys come. */
  method ParseMap(v: Value) returns (m: map<string, Schema>)
    requires v.MapV? && Parsable(v)
    ensures m.Keys == v.entries.Keys
    ensures m == MapSchema(v)
    decreases v, 0
  {
    m := map[];
    var keys := v.entries.Keys;
    ghost var done: set<string> := {};
    while keys != {}
      invariant keys + done == v.entries.Keys && keys !! done
      invariant m.Keys == done
      invariant forall k :: k in m ==> m[k] == SchemaOf(v.entries[k])
      decreases keys
    {
      var key :| key in keys;
      var value := ParseValue(v.entries[key]);
      m := m[key := value];
      keys := keys - {key};
      done := done + {key};
    }
  }
}
