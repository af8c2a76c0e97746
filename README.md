# simple_json_schema_like: schema inference, modelled in Dafny

The Go package `simplejsonschemalike` takes any value and returns a
"JSON-schema-like" description of its shape. `Parse` walks the value by reflection:

- a struct becomes a map from each exported field name to the schema of that field;
- `time.Time` becomes the label `"DateTime"`;
- an interface is unwrapped;
- a non-nil pointer is followed;
- a nil pointer becomes its own type name, or `"DateTime"` for `*time.Time`;
- a `map[string]T` becomes a map from each key to the schema of its value;
- a slice becomes the label `"[<element type>]"`;
- anything else becomes its type name.

The model has four modules:

- `Values` (values.dfy): the closed datatype `Value` that stands for a reflected
  Go value, with one constructor per kind that `parse` tells apart, and the
  result type `Schema` (`Label` or `Obj`). Type names are opaque strings, the way
  `reflect.Type.String()` prints them.
- `Parser` (parser.dfy): the Go functions. `SchemaOf`, `StructSchema` and
  `MapSchema` give the schema of a value by definition. `parse`, `parseStruct`,
  `parseMap`, `parseInterface` and `parsePrt` recurse through loops that fill a
  fresh map, so they are methods, each proved to compute that definition.
  `isTime`, `exportedField`, `parseNil` and `parseSlice` are functions.
  `Parsable` lists the inputs on which the Go code does not panic.
- `ParserProperties` (properties.dfy): what `parse` promises for each kind, as lemmas.
- `ParserScenario` (scenario.dfy): the input of the package's test and the
  schema it produces.

The code, and so the model:

- labels timestamps `"DateTime"`;
- always labels a slice `"[<element type>]"`, never looking at its elements;
- renames no field and returns no error;
- labels a nil pointer to a struct with the pointer's type name.

## Model

| member | source | states |
|---|---|---|
| `Parser.IsTime` | parser.go:129-132 | holds exactly when the type string is `time.Time` or `*time.Time` |
| `Parser.Exported` | parser.go:134-138 | a field name is exported when its first character is an upper-case letter, ASCII letters only |
| `Parser.ExportedIsAsciiUpper` | parser.go:134-138 | `Exported` accepts exactly the names whose first character is one of the 26 ASCII upper-case letters |
| `Parser.ParseSlice` | parser.go:125-127 | the label of a slice is built from the slice's element type string alone; the elements are never read |
| `Parser.SchemaOf` | parser.go:50-71 | the schema of a value, case by case as `parse` dispatches: a primitive gets its type name, a timestamp struct `"DateTime"`, any other struct and any map an object, a nil pointer `ParseNil` of its type, a slice `"[<element type>]"`; interfaces and non-nil pointers pass their content through |
| `Parser.ParseNil` | parser.go:73-79 | a nil pointer yields a label: `"DateTime"` when its type is the timestamp type, otherwise its own type string |
| `Parser.LastIndex` | parser.go:84-94 | picks the last field of a given name, the one whose value the loop's repeated `m[name] = ...` leaves in the map |
| `Parser.Parse` | parser.go:44-48 | the entry point opens its `interface{}` argument and yields the schema of the value it holds |
| `Parser.ParseValue` | parser.go:50-71 | the dispatcher computes the schema of any parsable value; the result does not depend on the order the loops visit map keys in |
| `Parser.ParseStruct` | parser.go:81-97 | the loop over the fields builds a map whose keys are exactly the exported field names, each holding the schema of its field |
| `Parser.StructLoopStep` | parser.go:84-94 | one iteration keeps the loop invariant: an exported field is added under its name, an unexported one leaves the map unchanged |
| `Parser.BuiltUpToAll` | parser.go:96 | the map built once every field has been visited is the struct's schema |
| `Parser.ParseInterface` | parser.go:99-102 | an interface yields the schema of the value it holds |
| `Parser.ParsePtr` | parser.go:104-111 | a nil pointer yields `ParseNil` of its type; a non-nil pointer yields the schema of its target |
| `Parser.ParseMap` | parser.go:113-123 | the loop over the keys, in any order, builds a map with the same keys, each holding the schema of its value |
| `ParserProperties.PrimitiveIsTypeName` | parser.go:66-69 | a value of any kind but struct, interface, pointer, map or slice is labelled by its type name |
| `ParserProperties.TimeStructIsDateTime` | parser.go:52-55 | a `time.Time` struct is labelled `"DateTime"`, whatever its fields hold |
| `ParserProperties.StructSchemaFields` | parser.go:81-97 | any other struct yields a map; a name is a key if and only if some exported field bears it; each key holds the schema of the last field of that name |
| `ParserProperties.StructSchemaDistinct` | parser.go:84-94 | when exported names are distinct, as Go requires, every exported field sits under its own name with its own schema |
| `ParserProperties.UnexportedNeverKey` | parser.go:89-91 | a field whose name does not start with an upper-case letter is never a key |
| `ParserProperties.NoExportedFieldsIsEmptyObj` | parser.go:81-97 | a struct with no exported field yields an empty map, not a label |
| `ParserProperties.UnexportedValuesIgnored` | parser.go:84-94 | the values of unexported fields never affect the schema; they need not even be parsable |
| `ParserProperties.PointerTransparent` | parser.go:104-111 | a non-nil pointer has the schema of its target |
| `ParserProperties.InterfaceTransparent` | parser.go:99-102 | an interface has the schema of the value it holds |
| `ParserProperties.NilPointerIsLabel` | parser.go:73-79 | a nil pointer yields `"DateTime"` for the timestamp type and otherwise its own type string; it is never a map |
| `ParserProperties.Deref` | parser.go:99-111 | following non-nil pointers and interfaces ends at a value that is neither, and it keeps the value parsable |
| `ParserProperties.DerefTransparent` | parser.go:99-111 | any chain of non-nil pointers and interfaces is transparent |
| `ParserProperties.SchemaIsObjIff` | parser.go:50-71 | the schema is a map if and only if, past its pointers and interfaces, the value is a map or a struct other than `time.Time` |
| `ParserProperties.SliceIsElemTypeLabel` | parser.go:64-65 | a slice yields exactly `"[" + element type + "]"`, and its elements need not be parsable |
| `ParserProperties.SliceIgnoresElements` | parser.go:125-127 | two slices with the same element type have the same schema, whatever their length or contents |
| `ParserProperties.MapSchemaEntries` | parser.go:113-123 | a map yields a map with the same key set, each key holding the schema of its value |
| `ParserProperties.EmptyMapIsEmptyObj` | parser.go:114 | an empty (or nil) map yields an empty map |
| `ParserScenario.SampleMapExample` | parser_test.go:44-48 | the test's `map[string]interface{}` yields `{"Key1":"string","Key2":"int","Key3":"bool"}` |
| `ParserScenario.InnExample` | parser_test.go:11-16 | the test's struct `inn` yields the nested map shown in `Parse`'s doc comment |
| `ParserScenario.InRenders` | parser_test.go:18-26 | the test's struct `in` yields a map of its seven fields; `Time`, left nil, is `"DateTime"`; `Struct` and `StructPtr` both have the schema of `inn` |
| `ParserScenario.InExample` | parser_test.go:37-71 | the test's whole input yields the schema in `Parse`'s doc comment, plus `"Time": "DateTime"` |
| `ParserScenario.NilStructPointerExample` | parser.go:104-107 | a nil `*inn` yields only its type name, while a non-nil one yields the whole map of `inn` |

## Left out

- Reflection itself (`Kind`, `Elem`, `NumField`, `MapKeys`, `MapIndex`) is replaced by the closed `Value` datatype.
- Type names are opaque strings. How `fmt` and `reflect.Type.String()` spell a type (for example `interface {}`) is not modelled.
- Map keys are strings only. `reflect.Value.String()` of a non-string key gives text like `<int Value>`, so distinct keys can collide. That case is not modelled, and neither is the "last write wins" iteration order it would expose.
- Parser.Exported: only ASCII `A`-`Z` count as upper-case letters. Go's `unicode.IsUpper` and `unicode.IsLetter` also accept non-ASCII upper-case letters.
- Panics are excluded by the precondition `Parsable`, not modelled. They are: `Parse(nil)`, a nil interface value that gets unwrapped (for example a nil stored in a `map[string]interface{}`), and an empty field name (which Go does not allow anyway).
- Cyclic pointer structures are not modelled: `Value` is a finite inductive datatype, so every traversal ends.
- The test harness is not modelled: the `json.Marshal` comparison, the printing and the expected-output constant `mockTest1`. `mockTest1` is not part of this model, so the scenario lemmas check against the doc comment of `Parse` instead.
- Rendering the schema as JSON text is not modelled.
