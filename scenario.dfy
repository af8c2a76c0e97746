/** The value built by the test in parser_test.go and the schema `parse`
    gives it, as the doc comment of `Parse` sketches it.  The two struct
    types of the test are written as functions of the values of their
    nested fields, so that each step below only looks at one level. */
module ParserScenario {
  import opened Values
  import opened Parser
  import opened ParserProperties

  /** The `Map` field of the test: a map[string]interface{} of a string, an int and a bool. */
  const SampleMap: Value :=
    MapV(map["Key1" := Iface(Some(Prim("string"))),
             "Key2" := Iface(Some(Prim("int"))),
             "Key3" := Iface(Some(Prim("bool")))])

  const SampleMapSchema: Schema :=
    Obj(map["Key1" := Label("string"), "Key2" := Label("int"), "Key3" := Label("bool")])

  /** A value of the test's struct type `inn` whose `Map` field holds `m`. */
  function InnOf(m: Value): Value
  {
    Struct("simplejsonschemalike.inn",
           [Field("String", Prim("string")),
            Field("Int", Prim("int")),
            Field("SliceOfString", Slice("string", [])),
            Field("Map", m)])
  }

  /** A value of the test's struct type `in`, with `Time` left nil, whose
      `Map` field holds `m` and whose `Struct` and `StructPtr` fields hold
      (a pointer to) `inner`. */
  function InOf(m: Value, inner: Value): Value
  {
    Struct("simplejsonschemalike.in",
           [Field("String", Prim("string")),
            Field("Int", Prim("int")),
            Field("SliceOfString", Slice("string", [])),
            Field("Map", m),
            Field("Time", Ptr("*time.Time", None)),
            Field("Struct", inner),
            Field("StructPtr", Ptr("*simplejsonschemalike.inn", Some(inner)))])
  }

  /** The map of the test renders as the map of its held values' type names. */
  lemma SampleMapExample()
    ensures Parsable(SampleMap)
    ensures SchemaOf(SampleMap) == SampleMapSchema
  {
    MapSchemaEntries(SampleMap.entries);
    var r := SchemaOf(SampleMap).members;
    assert r["Key1"] == Label("string") && r["Key2"] == Label("int") && r["Key3"] == Label("bool");
  }

  /** `inn` has distinct, exported field names. */
  lemma InnFields(m: Value)
    requires Parsable(m)
    ensures FieldsParsable(InnOf(m)) && DistinctExportedNames(InnOf(m).fields)
    ensures ExportedNames(InnOf(m).fields) == {"String", "Int", "SliceOfString", "Map"}
  {
    var fs := InnOf(m).fields;
    assert fs[0].name == "String" && fs[1].name == "Int";
    assert fs[2].name == "SliceOfString" && fs[3].name == "Map";
  }

  lemma InnMembers(m: Value)
    requires Parsable(m)
    ensures Parsable(InnOf(m))
    ensures var r := SchemaOf(InnOf(m)).members;
      && r.Keys == {"String", "Int", "SliceOfString", "Map"}
      && r["String"] == Label("string") && r["Int"] == Label("int")
      && r["SliceOfString"] == Label("[string]") && r["Map"] == SchemaOf(m)
  {
    InnFields(m);
    var v := InnOf(m);
    StructSchemaDistinct(v, 0);
    StructSchemaDistinct(v, 1);
    StructSchemaDistinct(v, 2);
    StructSchemaDistinct(v, 3);
    assert SchemaOf(Slice("string", [])) == Label("[string]");
  }

  /** `inn` renders as the nested map of the doc comment. */
  lemma InnExample(m: Value)
    requires Parsable(m)
    ensures Parsable(InnOf(m))
    ensures SchemaOf(InnOf(m)) ==
      Obj(map["String" := Label("string"), "Int" := Label("int"),
              "SliceOfString" := Label("[string]"), "Map" := SchemaOf(m)])
  {
    InnMembers(m);
    var r := SchemaOf(InnOf(m)).members;
    assert r == map["String" := Label("string"), "Int" := Label("int"),
                    "SliceOfString" := Label("[string]"), "Map" := SchemaOf(m)];
  }

  /** `in` has distinct, exported field names. */
  lemma InFields(m: Value, inner: Value)
    requires Parsable(m) && Parsable(inner)
    ensures FieldsParsable(InOf(m, inner)) && DistinctExportedNames(InOf(m, inner).fields)
  {
  }

  /** The keys of `in`'s map are its seven field names. */
  lemma InKeys(m: Value, inner: Value)
    requires Parsable(m) && Parsable(inner)
    ensures Parsable(InOf(m, inner))
    ensures SchemaOf(InOf(m, inner)).members.Keys
         == {"String", "Int", "SliceOfString", "Map", "Time", "Struct", "StructPtr"}
  {
    InFields(m, inner);
    var fs := InOf(m, inner).fields;
    assert fs[0].name == "String" && fs[1].name == "Int";
    assert fs[2].name == "SliceOfString" && fs[3].name == "Map";
    assert fs[4].name == "Time" && fs[5].name == "Struct" && fs[6].name == "StructPtr";
  }

  /** The primitive fields `in` shares with `inn`. */
  lemma InPrimitiveMembers(m: Value, inner: Value)
    requires Parsable(m) && Parsable(inner)
    ensures Parsable(InOf(m, inner))
    ensures var r := SchemaOf(InOf(m, inner)).members;
      && "String" in r && "Int" in r
      && r["String"] == Label("string") && r["Int"] == Label("int")
  {
    InFields(m, inner);
    StructSchemaDistinct(InOf(m, inner), 0);
    StructSchemaDistinct(InOf(m, inner), 1);
  }

  /** The slice and map fields `in` shares with `inn`. */
  lemma InCollectionMembers(m: Value, inner: Value)
    requires Parsable(m) && Parsable(inner)
    ensures Parsable(InOf(m, inner))
    ensures var r := SchemaOf(InOf(m, inner)).members;
      && "SliceOfString" in r && "Map" in r
      && r["SliceOfString"] == Label("[string]") && r["Map"] == SchemaOf(m)
  {
    InFields(m, inner);
    StructSchemaDistinct(InOf(m, inner), 2);
    StructSchemaDistinct(InOf(m, inner), 3);
    assert SchemaOf(Slice("string", [])) == Label("[string]");
  }

  /** The fields `in` adds: the nil timestamp pointer and the nested struct. */
  lemma InOwnMembers(m: Value, inner: Value)
    requires Parsable(m) && Parsable(inner)
    ensures Parsable(InOf(m, inner))
    ensures var r := SchemaOf(InOf(m, inner)).members;
      && "Time" in r && "Struct" in r && "StructPtr" in r
      && r["Time"] == Label("DateTime")
      && r["Struct"] == SchemaOf(inner) && r["StructPtr"] == SchemaOf(inner)
  {
    InFields(m, inner);
    var v := InOf(m, inner);
    StructSchemaDistinct(v, 4);
    StructSchemaDistinct(v, 5);
    StructSchemaDistinct(v, 6);
  }

  /** A map with `in`'s seven keys holding the seven given values is that map. */
  lemma SevenMembers(r: map<string, Schema>, mapSchema: Schema, innSchema: Schema)
    requires r.Keys == {"String", "Int", "SliceOfString", "Map", "Time", "Struct", "StructPtr"}
    requires r["String"] == Label("string") && r["Int"] == Label("int")
    requires r["SliceOfString"] == Label("[string]") && r["Map"] == mapSchema
    requires r["Time"] == Label("DateTime") && r["Struct"] == innSchema && r["StructPtr"] == innSchema
    ensures r == map["String" := Label("string"), "Int" := Label("int"),
                     "SliceOfString" := Label("[string]"), "Map" := mapSchema,
                     "Time" := Label("DateTime"), "Struct" := innSchema, "StructPtr" := innSchema]
  {
  }

  /** `in` renders as the map of its seven fields. */
  lemma InRenders(m: Value, inner: Value)
    requires Parsable(m) && Parsable(inner)
    ensures Parsable(InOf(m, inner))
    ensures SchemaOf(InOf(m, inner)) ==
      Obj(map["String" := Label("string"), "Int" := Label("int"),
              "SliceOfString" := Label("[string]"), "Map" := SchemaOf(m),
              "Time" := Label("DateTime"), "Struct" := SchemaOf(inner), "StructPtr" := SchemaOf(inner)])
  {
    InKeys(m, inner);
    InPrimitiveMembers(m, inner);
    InCollectionMembers(m, inner);
    InOwnMembers(m, inner);
    var r := SchemaOf(InOf(m, inner)).members;
    SevenMembers(r, SchemaOf(m), SchemaOf(inner));
  }

  /** The test's input renders as the doc comment of `Parse` shows it, with
      `Struct` and `StructPtr` both the full map of `inn`, and with the nil
      `Time` pointer labelled "DateTime". */
  lemma InExample()
    ensures Parsable(InOf(SampleMap, InnOf(SampleMap)))
    ensures SchemaOf(InOf(SampleMap, InnOf(SampleMap))) ==
      var inn := Obj(map["String" := Label("string"), "Int" := Label("int"),
                         "SliceOfString" := Label("[string]"), "Map" := SampleMapSchema]);
      Obj(map["String" := Label("string"), "Int" := Label("int"),
              "SliceOfString" := Label("[string]"), "Map" := SampleMapSchema,
              "Time" := Label("DateTime"), "Struct" := inn, "StructPtr" := inn])
  {
    SampleMapExample();
    InnExample(SampleMap);
    InRenders(SampleMap, InnOf(SampleMap));
  }

  /** The asymmetry between nil and non-nil pointers to a struct: a nil `*inn`
      is only its type name, a non-nil one the whole map of `inn`. */
  lemma NilStructPointerExample(m: Value)
    requires Parsable(m)
    ensures SchemaOf(Ptr("*simplejsonschemalike.inn", None)) == Label("*simplejsonschemalike.inn")
    ensures Parsable(InnOf(m))
    ensures SchemaOf(Ptr("*simplejsonschemalike.inn", Some(InnOf(m)))) == SchemaOf(InnOf(m))
    ensures SchemaOf(InnOf(m)).Obj?
  {
  }
}
