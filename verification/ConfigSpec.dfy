/** Instance configuration trees and what normalising them against a schema means
    (packages/runtime-core/plugin_host_subprocess.go). */
module ConfigSpec {
  import opened Base

  /** A number as Go holds it: some integer kind, a float, or the text of a JSON number with its readings. */
  datatype Number =
    | Whole(i: int)
    | Float(r: real)
    | Literal(pointed: bool, int64: Option<int>, float64: Option<real>)

  datatype Value =
    | Null
    | Bool(b: bool)
    | Text(s: string)
    | Num(n: Number)
    | List(items: seq<Value>)
    | Obj(fields: map<string, Value>)

  const MIN_INT64 := -0x8000_0000_0000_0000
  const MAX_INT64 := 0x7FFF_FFFF_FFFF_FFFF

  /** Conversion of an unsigned 64-bit value wraps around. */
  function Wrapped(i: int): int {
    if i > MAX_INT64 then i - 0x1_0000_0000_0000_0000 else i
  }

  function IntegerOf(v: Value): Option<int> {
    match v
    case Num(Whole(i)) => Some(Wrapped(i))
    case Num(Float(r)) => if r == r.Floor as real && MIN_INT64 <= r.Floor <= MAX_INT64 then Some(r.Floor) else None
    case Num(Literal(pointed, int64, _)) => if pointed then None else int64
    case _ => None
  }

  function NumberOf(v: Value): Option<real> {
    match v
    case Num(Whole(i)) => Some(i as real)
    case Num(Float(r)) => Some(r)
    case Num(Literal(_, _, float64)) => float64
    case _ => None
  }

  predicate MatchesType(declared: string, v: Value) {
    if declared == "string" then v.Text?
    else if declared == "boolean" then v.Bool?
    else if declared == "number" then v.Num?
    else if declared == "integer" then IntegerOf(v).Some?
    else true
  }

  predicate SameValue(declared: string, a: Value, b: Value) {
    if declared == "string" then a.Text? && b.Text? && a == b
    else if declared == "boolean" then a.Bool? && b.Bool? && a == b
    else if declared == "integer" then IntegerOf(a).Some? && IntegerOf(a) == IntegerOf(b)
    else if declared == "number" then NumberOf(a).Some? && NumberOf(a) == NumberOf(b)
    else a == b
  }

  function Field(v: Value, key: string): Option<Value> {
    if v.Obj? && key in v.fields then Some(v.fields[key]) else None
  }

  /** The declared type of a property, blank when there is none. */
  function TypeOf(schema: Value): string {
    match Field(schema, "type")
    case Some(Text(s)) => TrimSpace(s)
    case _ => ""
  }

  /** The property schemas of an object schema, if it has a usable table of them. */
  function Properties(schema: Value): (properties: Option<map<string, Value>>)
    ensures properties.Some? ==> forall k :: k in properties.value ==> properties.value[k] < schema
  {
    match Field(schema, "properties")
    case Some(Obj(fields)) => Some(fields)
    case _ => None
  }

  function NamesIn(items: seq<Value>): set<string> {
    set i | 0 <= i < |items| && items[i].Text? && !IsBlank(items[i].s) :: TrimSpace(items[i].s)
  }

  function RequiredNames(schema: Value): set<string> {
    match Field(schema, "required")
    case Some(List(items)) => NamesIn(items)
    case _ => {}
  }

  predicate Listed(declared: string, items: seq<Value>, v: Value) {
    exists i :: 0 <= i < |items| && SameValue(declared, items[i], v)
  }

  /** An enumeration restricts a value only when it is a non-empty list. */
  predicate InEnum(declared: string, schema: Value, v: Value) {
    match Field(schema, "enum")
    case Some(List(items)) => items == [] || Listed(declared, items, v)
    case _ => true
  }

  predicate LeafOk(declared: string, schema: Value, v: Value) {
    MatchesType(declared, v) && InEnum(declared, schema, v)
  }

  /** A default is used only when it has the declared type and is in the enumeration, if there is one. */
  function LeafDefault(declared: string, schema: Value): Option<Value> {
    match Field(schema, "default")
    case Some(v) =>
      var allowed := match Field(schema, "enum")
        case None => true
        case Some(List(items)) => Listed(declared, items, v)
        case Some(_) => false;
      if declared != "" && declared != "object" && MatchesType(declared, v) && allowed then Some(v) else None
    case None => None
  }

  predicate IsLeaf(schema: Value) {
    schema.Obj? && TypeOf(schema) != "" && TypeOf(schema) != "object"
  }

  predicate IsBranch(schema: Value) {
    schema.Obj? && TypeOf(schema) == "object"
  }

  // ---- From the third level down ----

  predicate Fillable(properties: map<string, Value>, given: map<string, Value>, k: string) {
    k in properties && k !in given && IsLeaf(properties[k]) && LeafDefault(TypeOf(properties[k]), properties[k]).Some?
  }

  /** Missing leaves get their defaults. */
  function Filled(properties: map<string, Value>, given: map<string, Value>): map<string, Value> {
    map k | k in properties.Keys + given.Keys && (k in given || Fillable(properties, given, k)) ::
      if k in given then given[k] else LeafDefault(TypeOf(properties[k]), properties[k]).value
  }

  /** A required leaf is missing and has no usable default. */
  predicate Lacks(properties: map<string, Value>, required: set<string>, given: map<string, Value>) {
    exists k :: k in properties && k in required && k !in given && IsLeaf(properties[k])
      && LeafDefault(TypeOf(properties[k]), properties[k]).None?
  }

  /** A value against its own schema: objects are normalised, leaves only checked. */
  function Child(schema: Value, v: Value): Option<Value>
    decreases schema, 1
  {
    if IsBranch(schema) then (if v.Obj? then Branch(schema, v) else None)
    else if IsLeaf(schema) && !LeafOk(TypeOf(schema), schema, v) then None
    else Some(v)
  }

  function Branch(schema: Value, v: Value): Option<Value>
    requires v.Obj?
    decreases schema, 0
  {
    match Properties(schema)
    case None => Some(v)
    case Some(properties) =>
      if Lacks(properties, RequiredNames(schema), v.fields) then None else
      var filled := Filled(properties, v.fields);
      if exists k :: k in properties && k in filled && Child(properties[k], filled[k]).None? then None
      else Some(Obj(map k | k in filled ::
                    if k in properties then Child(properties[k], filled[k]).value else filled[k]))
  }

  // ---- The two levels above ----

  /** At the third level a missing object is created, and a missing leaf is left missing. */
  function Opened(properties: map<string, Value>, given: map<string, Value>): map<string, Value> {
    map k | k in properties.Keys + given.Keys && (k in given || IsBranch(properties[k])) ::
      if k in given then given[k] else Obj(map[])
  }

  /** A second-level object: required names must be there, third-level values must conform. */
  function Deeper(schema: Value, v: Value): Option<Value> {
    if !v.Obj? then Some(v)
    else if exists name :: name in RequiredNames(schema) && name !in v.fields then None
    else
      match Properties(schema)
      case None => Some(v)
      case Some(properties) =>
        var prepared := Opened(properties, v.fields);
        if exists k :: k in properties && k in prepared && Child(properties[k], prepared[k]).None? then None
        else Some(Obj(map k | k in prepared ::
                      if k in properties then Child(properties[k], prepared[k]).value else prepared[k]))
  }

  /** A second-level value: leaves are checked for their type only. */
  function Grown(schema: Value, v: Value): Option<Value> {
    if IsBranch(schema) then Deeper(schema, v)
    else if IsLeaf(schema) && !MatchesType(TypeOf(schema), v) then None
    else Some(v)
  }

  function Nested(schema: Value, v: Value): Option<Value> {
    match Properties(schema)
    case None => Some(v)
    case Some(properties) =>
      if !v.Obj? then Some(v)
      else if exists k :: k in properties && k in v.fields && Grown(properties[k], v.fields[k]).None? then None
      else Some(Obj(map k | k in v.fields ::
                    if k in properties then Grown(properties[k], v.fields[k]).value else v.fields[k]))
  }

  function TopLevel(schema: Value, v: Value): Option<Value> {
    if IsBranch(schema) then Nested(schema, v)
    else if IsLeaf(schema) && !MatchesType(TypeOf(schema), v) then None
    else Some(v)
  }

  /** The whole configuration against the schema of the manifest, if it has one. */
  function Normalize(schema: Option<Value>, config: map<string, Value>): Option<map<string, Value>> {
    match (if schema.Some? then Properties(schema.value) else None)
    case None => Some(config)
    case Some(properties) =>
      if exists name :: name in RequiredNames(schema.value) && name !in config then None
      else if exists k :: k in properties && k in config && TopLevel(properties[k], config[k]).None? then None
      else Some(map k | k in config :: if k in properties then TopLevel(properties[k], config[k]).value else config[k])
  }
}
