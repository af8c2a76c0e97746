/** The runtime values that `parse` inspects and the schema values it builds.
    Go's `reflect.Value` is replaced by a closed datatype with one constructor per
    kind that `parse` distinguishes; type names are carried as opaque strings, as
    `reflect.Type.String()` would print them. */
module Values {

  datatype Option<+T> = None | Some(value: T)

  /** One field of a struct, in declaration order: its Go name and its value. */
  datatype Field = Field(name: string, value: Value)

  /** A Go value as seen through reflection.
      - Prim: any kind other than struct, interface, pointer, map and slice
        (int, string, bool, array, ...); only its type name matters.
      - Struct: a struct of the named type with its fields in declaration order.
      - Iface: a value whose static type is an interface; `held` is None for a nil interface.
      - Ptr: a pointer of the named type (e.g. "*simplejsonschemalike.inn"); `target` is None for nil.
      - MapV: a map with string keys (`MapKeys`/`MapIndex`).
      - Slice: a slice whose element type prints as `elemType`, and its elements. */
  datatype Value =
    | Prim(typeName: string)
    | Struct(typeName: string, fields: seq<Field>)
    | Iface(held: Option<Value>)
    | Ptr(typeName: string, target: Option<Value>)
    | MapV(entries: map<string, Value>)
    | Slice(elemType: string, elems: seq<Value>)

  /** What `parse` returns: a string label or a `map[string]interface{}` of nested schemas. */
  datatype Schema = Label(text: string) | Obj(members: map<string, Schema>)
}
