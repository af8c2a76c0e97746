/** What `parse` promises, stated about the reference definition `SchemaOf`
    (which the methods of `Parser` are proved to compute). */
module ParserProperties {
  import opened Values
  import opened Parser

  /** Any kind other than struct, interface, pointer, map and slice is labelled
      with its type name. */
  lemma PrimitiveIsTypeName(t: string)
    ensures SchemaOf(Prim(t)) == Label(t)
  {
  }

  /** A timestamp struct is labelled "DateTime", whatever its fields hold. */
  lemma TimeStructIsDateTime(t: string, fs: seq<Field>)
    requires IsTime(t)
    ensures Parsable(Struct(t, fs))
    ensures SchemaOf(Struct(t, fs)) == Label("DateTime")
  {
  }

  /** A position holds the last field of its name. */
  ghost predicate LastOfName(fs: seq<Field>, i: nat)
  {
    i < |fs| && forall k :: i < k < |fs| ==> fs[k].name != fs[i].name
  }

  /** Any other struct becomes a map whose keys are exactly its exported field
      names; each key holds the schema of the field bearing it (the last one,
      should a name repeat). */
  lemma StructSchemaFields(v: Value)
    requires v.Struct? && !IsTime(v.typeName) && FieldsParsable(v)
    ensures SchemaOf(v).Obj?
    ensures forall n :: n in SchemaOf(v).members <==>
      exists i :: 0 <= i < |v.fields| && v.fields[i].name == n && Exported(v.fields[i].name)
    ensures forall i :: 0 <= i < |v.fields| && Exported(v.fields[i].name) && LastOfName(v.fields, i) ==>
      v.fields[i].name in SchemaOf(v).members &&
      SchemaOf(v).members[v.fields[i].name] == SchemaOf(v.fields[i].value)
  {
    var fs := v.fields;
    forall i | 0 <= i < |fs| && Exported(fs[i].name) && LastOfName(fs, i)
      ensures LastIndex(fs, fs[i].name) == i
    {
      assert fs[i].name in Names(fs);
    }
  }

  /** Go rejects two fields of one name, except blank ones, which are unexported. */
  ghost predicate DistinctExportedNames(fs: seq<Field>)
    requires forall i :: 0 <= i < |fs| ==> fs[i].name != []
  {
    forall i, j :: 0 <= i < j < |fs| && Exported(fs[i].name) ==> fs[i].name != fs[j].name
  }

  /** For a struct Go accepts, every exported field appears under its own name. */
  lemma StructSchemaDistinct(v: Value, i: nat)
    requires v.Struct? && !IsTime(v.typeName) && FieldsParsable(v)
    requires DistinctExportedNames(v.fields)
    requires i < |v.fields| && Exported(v.fields[i].name)
    ensures v.fields[i].name in SchemaOf(v).members
    ensures SchemaOf(v).members[v.fields[i].name] == SchemaOf(v.fields[i].value)
  {
  }

  /** A field whose name does not start with an upper-case letter is never a key. */
  lemma UnexportedNeverKey(v: Value, i: nat)
    requires v.Struct? && !IsTime(v.typeName) && FieldsParsable(v)
    requires i < |v.fields| && !Exported(v.fields[i].name)
    ensures v.fields[i].name !in SchemaOf(v).members
  {
  }

  /** A struct with no exported field yields an empty map, not a label. */
  lemma NoExportedFieldsIsEmptyObj(v: Value)
    requires v.Struct? && !IsTime(v.typeName) && FieldsParsable(v)
    requires forall i :: 0 <= i < |v.fields| ==> !Exported(v.fields[i].name)
    ensures SchemaOf(v) == Obj(map[])
  {
  }

  /** Two field lists with the same names have the same last positions. */
  lemma LastIndexSameNames(fs: seq<Field>, gs: seq<Field>, n: string)
    requires |fs| == |gs| && forall i :: 0 <= i < |fs| ==> fs[i].name == gs[i].name
    requires n in Names(fs)
    ensures n in Names(gs) && LastIndex(fs, n) == LastIndex(gs, n)
  {
    var j := LastIndex(fs, n);
    assert gs[j].name == n;
    var k := LastIndex(gs, n);
    assert fs[k].name == n;
  }

  /** Two field lists with the same names have the same exported names. */
  lemma ExportedNamesSameNames(fs: seq<Field>, gs: seq<Field>)
    requires |fs| == |gs| && forall i :: 0 <= i < |fs| ==> fs[i].name == gs[i].name
    requires forall i :: 0 <= i < |fs| ==> fs[i].name != []
    ensures forall i :: 0 <= i < |gs| ==> gs[i].name != []
    ensures ExportedNames(fs) == ExportedNames(gs)
  {
    forall n | n in ExportedNames(fs) ensures n in ExportedNames(gs) {
      var i :| 0 <= i < |fs| && Exported(fs[i].name) && fs[i].name == n;
      assert gs[i].name == n;
    }
    forall n | n in ExportedNames(gs) ensures n in ExportedNames(fs) {
      var i :| 0 <= i < |gs| && Exported(gs[i].name) && gs[i].name == n;
      assert fs[i].name == n;
    }
  }

  /** The values of unexported fields are never looked at: two structs of one
      type whose fields agree in name, and in value wherever exported, have
      the same schema. */
  lemma UnexportedValuesIgnored(t: string, fs: seq<Field>, gs: seq<Field>)
    requires Parsable(Struct(t, fs)) && |fs| == |gs|
    requires forall i :: 0 <= i < |fs| ==> fs[i].name == gs[i].name
    requires forall i :: 0 <= i < |fs| && fs[i].name != [] && Exported(fs[i].name) ==> fs[i].value == gs[i].value
    ensures Parsable(Struct(t, gs))
    ensures SchemaOf(Struct(t, fs)) == SchemaOf(Struct(t, gs))
  {
    if !IsTime(t) {
      assert FieldsParsable(Struct(t, gs)) by {
        assert forall i :: 0 <= i < |gs| ==> gs[i].name == fs[i].name;
      }
      ExportedNamesSameNames(fs, gs);
      forall n | n in ExportedNames(fs)
        ensures LastIndex(fs, n) == LastIndex(gs, n)
      {
        var i :| 0 <= i < |fs| && Exported(fs[i].name) && fs[i].name == n;
        assert n in Names(fs);
        LastIndexSameNames(fs, gs, n);
      }
    }
  }

  /** A non-nil pointer is transparent. */
  lemma PointerTransparent(t: string, x: Value)
    requires Parsable(x)
    ensures Parsable(Ptr(t, Some(x)))
    ensures SchemaOf(Ptr(t, Some(x))) == SchemaOf(x)
  {
  }

  /** An interface yields the schema of the value it holds. */
  lemma InterfaceTransparent(x: Value)
    requires Parsable(x)
    ensures Parsable(Iface(Some(x)))
    ensures SchemaOf(Iface(Some(x))) == SchemaOf(x)
  {
  }

  /** A nil pointer is labelled "DateTime" when it points at a timestamp and
      by its own type otherwise; it never yields a map. */
  lemma NilPointerIsLabel(t: string)
    ensures Parsable(Ptr(t, None))
    ensures SchemaOf(Ptr(t, None)) == Label(if t == "*time.Time" || t == "time.Time" then "DateTime" else t)
    ensures !SchemaOf(Ptr(t, None)).Obj?
  {
  }

  /** The value reached by following non-nil pointers and interfaces. */
  function Deref(v: Value): (r: Value)
    ensures !(r.Ptr? && r.target.Some?) && !(r.Iface? && r.held.Some?)
    ensures Parsable(v) ==> Parsable(r)
  {
    match v
    case Iface(Some(x)) => Deref(x)
    case Ptr(_, Some(x)) => Deref(x)
    case _ => v
  }

  /** Any chain of non-nil pointers and interfaces is transparent. */
  lemma {:induction false} DerefTransparent(v: Value)
    requires Parsable(v)
    ensures SchemaOf(Deref(v)) == SchemaOf(v)
  {
    match v
    case Iface(Some(x)) => DerefTransparent(x);
    case Ptr(_, Some(x)) => DerefTransparent(x);
    case _ =>
  }

  /** The schema is a map exactly when, past its pointers and interfaces, the
      value is a map or a struct other than a timestamp; otherwise it is a label. */
  lemma SchemaIsObjIff(v: Value)
    requires Parsable(v)
    ensures SchemaOf(v).Obj? <==>
      (Deref(v).MapV? || (Deref(v).Struct? && !IsTime(Deref(v).typeName)))
  {
  }

  /** A slice is labelled "[" + element type + "]", whatever it holds: its
      elements are never inspected, not even a nil interface among them. */
  lemma SliceIsElemTypeLabel(e: string, xs: seq<Value>)
    ensures Parsable(Slice(e, xs))
    ensures SchemaOf(Slice(e, xs)) == Label("[" + e + "]")
  {
  }

  /** Two slices of one element type share their schema, whatever their contents. */
  lemma SliceIgnoresElements(e: string, xs: seq<Value>, ys: seq<Value>)
    ensures SchemaOf(Slice(e, xs)) == SchemaOf(Slice(e, ys))
  {
  }

  /** A map yields a map with the same keys, each holding the schema of its value. */
  lemma MapSchemaEntries(es: map<string, Value>)
    requires Parsable(MapV(es))
    ensures SchemaOf(MapV(es)).Obj?
    ensures SchemaOf(MapV(es)).members.Keys == es.Keys
    ensures forall k :: k in es ==> Parsable(es[k]) && SchemaOf(MapV(es)).members[k] == SchemaOf(es[k])
  {
  }

  /** An empty (or nil) map yields an empty map. */
  lemma EmptyMapIsEmptyObj()
    ensures SchemaOf(MapV(map[])) == Obj(map[])
  {
  }
}
