/** What the schema of a configuration says, read off its fields. */
module Schemas {
  import opened Base
  import opened ConfigSpec

  // ---- Types ----

  /** The schema names this type, whatever spaces surround the name. */
  predicate Declares(schema: Value, declared: string) {
    && schema.Obj? && "type" in schema.fields && schema.fields["type"].Text?
    && TrimSpace(schema.fields["type"].s) == declared
  }

  predicate DeclaresObject(schema: Value) {
    Declares(schema, "object")
  }

  /** The schema names a type, and that is not the one of objects. */
  predicate DeclaresLeaf(schema: Value) {
    && schema.Obj? && "type" in schema.fields && schema.fields["type"].Text?
    && !IsBlank(schema.fields["type"].s) && !DeclaresObject(schema)
  }

  /** The declared type of a leaf. */
  function LeafType(schema: Value): string
    requires DeclaresLeaf(schema)
  {
    TrimSpace(schema.fields["type"].s)
  }

  /** The schema has a table of properties. */
  predicate HasTable(schema: Value) {
    schema.Obj? && "properties" in schema.fields && schema.fields["properties"].Obj?
  }

  /** The table holds a schema for this property. */
  predicate HasProperty(schema: Value, k: string) {
    HasTable(schema) && k in schema.fields["properties"].fields
  }

  function Property(schema: Value, k: string): (p: Value)
    requires HasProperty(schema, k)
    ensures p < schema
  {
    schema.fields["properties"].fields[k]
  }

  /** The name is in the list of required properties, whatever spaces surround it there. */
  predicate Demands(schema: Value, name: string) {
    && schema.Obj? && "required" in schema.fields && schema.fields["required"].List? && name != ""
    && var items := schema.fields["required"].items;
    exists i :: 0 <= i < |items| && items[i].Text? && TrimSpace(items[i].s) == name
  }

  // ---- Values ----

  /** The value reads as the integer `i`: a whole number, wrapped around where it is beyond 64 bits with a sign; a float
      with no fraction and within 64 bits; or a literal without a point that parses. */
  predicate ReadsInteger(v: Value, i: int) {
    v.Num? &&
    match v.n
    case Whole(j) => i == if j <= 0x7FFF_FFFF_FFFF_FFFF then j else j - 0x1_0000_0000_0000_0000
    case Float(r) => r == i as real && -0x8000_0000_0000_0000 <= i <= 0x7FFF_FFFF_FFFF_FFFF
    case Literal(pointed, int64, _) => !pointed && int64 == Some(i)
  }

  predicate ReadsNumber(v: Value, r: real) {
    v.Num? &&
    match v.n
    case Whole(j) => r == j as real
    case Float(x) => r == x
    case Literal(_, _, float64) => float64 == Some(r)
  }

  /** A value of the declared type; a type that the program does not know takes every value. */
  ghost predicate OfType(declared: string, v: Value) {
    && (declared == "string" ==> v.Text?) && (declared == "boolean" ==> v.Bool?) && (declared == "number" ==> v.Num?)
    && (declared == "integer" ==> exists i :: ReadsInteger(v, i))
  }

  /** The same value, as far as the declared type can tell. */
  ghost predicate Agree(declared: string, a: Value, b: Value) {
    if declared == "string" then a.Text? && b.Text? && a.s == b.s
    else if declared == "boolean" then a.Bool? && b.Bool? && a.b == b.b
    else if declared == "integer" then exists i :: ReadsInteger(a, i) && ReadsInteger(b, i)
    else if declared == "number" then exists r :: ReadsNumber(a, r) && ReadsNumber(b, r)
    else a == b
  }

  /** Some entry of the enumeration agrees with the value. */
  ghost predicate Among(declared: string, items: seq<Value>, v: Value) {
    exists i :: 0 <= i < |items| && Agree(declared, items[i], v)
  }

  /** The enumeration does not shut the value out: it is missing, no list, or empty, or lists the value. */
  ghost predicate Admits(schema: Value, declared: string, v: Value) {
    && schema.Obj?
    && ("enum" in schema.fields && schema.fields["enum"].List? && schema.fields["enum"].items != [] ==>
        Among(declared, schema.fields["enum"].items, v))
  }

  /** A value that a leaf may have. */
  ghost predicate Fits(schema: Value, v: Value)
    requires DeclaresLeaf(schema)
  {
    OfType(LeafType(schema), v) && Admits(schema, LeafType(schema), v)
  }

  /** A leaf can be filled with `d`: that is its default, it is of the declared type, and, if there is any enumeration,
      that is a list and lists it. */
  ghost predicate Offers(schema: Value, d: Value) {
    && DeclaresLeaf(schema) && "default" in schema.fields && schema.fields["default"] == d
    && OfType(LeafType(schema), d)
    && ("enum" in schema.fields ==>
          schema.fields["enum"].List? && Among(LeafType(schema), schema.fields["enum"].items, d))
  }

  ghost predicate OffersNothing(schema: Value) {
    forall d :: !Offers(schema, d)
  }

  // ---- The program reads schemas in just this way ----

  lemma ReadsTypes(schema: Value)
    ensures IsLeaf(schema) <==> DeclaresLeaf(schema)
    ensures IsLeaf(schema) ==> TypeOf(schema) == LeafType(schema)
    ensures IsBranch(schema) <==> DeclaresObject(schema)
    ensures Properties(schema).Some? <==> HasTable(schema)
    ensures forall k :: HasProperty(schema, k) <==> Properties(schema).Some? && k in Properties(schema).value
    ensures forall k :: HasProperty(schema, k) ==> Property(schema, k) == Properties(schema).value[k]
  {
  }

  lemma ReadsRequired(schema: Value, name: string)
    ensures name in RequiredNames(schema) <==> Demands(schema, name)
  {
    if schema.Obj? && "required" in schema.fields && schema.fields["required"].List? {
      var items := schema.fields["required"].items;
      assert RequiredNames(schema) == NamesIn(items);
    }
  }

  lemma IntegerIs(v: Value)
    ensures forall i :: ReadsInteger(v, i) <==> IntegerOf(v) == Some(i)
  {
  }

  lemma NumberIs(v: Value)
    ensures forall r :: ReadsNumber(v, r) <==> NumberOf(v) == Some(r)
  {
  }

  lemma TypesAre(declared: string, v: Value)
    ensures MatchesType(declared, v) <==> OfType(declared, v)
  {
    IntegerIs(v);
    if IntegerOf(v).Some? {
      assert ReadsInteger(v, IntegerOf(v).value);
    }
  }

  lemma AgreementIs(declared: string, a: Value, b: Value)
    ensures SameValue(declared, a, b) <==> Agree(declared, a, b)
  {
    IntegerIs(a);
    IntegerIs(b);
    NumberIs(a);
    NumberIs(b);
    if declared == "integer" && IntegerOf(a).Some? {
      assert ReadsInteger(a, IntegerOf(a).value);
    }
    if declared == "number" && NumberOf(a).Some? {
      assert ReadsNumber(a, NumberOf(a).value);
    }
  }

  lemma ListingIs(declared: string, items: seq<Value>, v: Value)
    ensures Listed(declared, items, v) <==> Among(declared, items, v)
  {
    forall i | 0 <= i < |items| ensures SameValue(declared, items[i], v) <==> Agree(declared, items[i], v) {
      AgreementIs(declared, items[i], v);
    }
  }

  lemma LeafIs(schema: Value, v: Value)
    requires DeclaresLeaf(schema)
    ensures LeafOk(TypeOf(schema), schema, v) <==> Fits(schema, v)
    ensures InEnum(TypeOf(schema), schema, v) <==> Admits(schema, LeafType(schema), v)
    ensures MatchesType(TypeOf(schema), v) <==> OfType(LeafType(schema), v)
  {
    ReadsTypes(schema);
    TypesAre(LeafType(schema), v);
    if "enum" in schema.fields && schema.fields["enum"].List? {
      ListingIs(LeafType(schema), schema.fields["enum"].items, v);
    }
  }

  lemma DefaultIs(schema: Value, d: Value)
    ensures IsLeaf(schema) && LeafDefault(TypeOf(schema), schema) == Some(d) <==> Offers(schema, d)
  {
    ReadsTypes(schema);
    if DeclaresLeaf(schema) {
      TypesAre(LeafType(schema), d);
      if "enum" in schema.fields && schema.fields["enum"].List? {
        ListingIs(LeafType(schema), schema.fields["enum"].items, d);
      }
    }
  }

  lemma NoDefaultIs(schema: Value)
    ensures IsLeaf(schema) && LeafDefault(TypeOf(schema), schema).None? <==>
              DeclaresLeaf(schema) && OffersNothing(schema)
  {
    ReadsTypes(schema);
    forall d ensures IsLeaf(schema) && LeafDefault(TypeOf(schema), schema) == Some(d) <==> Offers(schema, d) {
      DefaultIs(schema, d);
    }
    if IsLeaf(schema) && LeafDefault(TypeOf(schema), schema).Some? {
      assert Offers(schema, LeafDefault(TypeOf(schema), schema).value);
    }
  }
}
