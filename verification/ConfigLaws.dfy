/** What normalising a configuration promises: nothing is lost, once is enough, and what is reached conforms. */
module ConfigLaws {
  import opened Base
  import opened ConfigSpec
  import opened Schemas

  // ---- Only keys are added ----

  /** `b` is `a` with further keys, at any depth. */
  predicate Extends(a: Value, b: Value) {
    a == b || (a.Obj? && b.Obj? && forall k :: k in a.fields ==> k in b.fields && Extends(a.fields[k], b.fields[k]))
  }

  lemma {:induction false} ChildExtends(schema: Value, v: Value)
    requires Child(schema, v).Some?
    ensures Extends(v, Child(schema, v).value) && (v.Obj? <==> Child(schema, v).value.Obj?)
    decreases schema, 1
  {
    if IsBranch(schema) {
      BranchExtends(schema, v);
    }
  }

  lemma {:induction false} BranchExtends(schema: Value, v: Value)
    requires v.Obj? && Branch(schema, v).Some?
    ensures Extends(v, Branch(schema, v).value) && Branch(schema, v).value.Obj?
    decreases schema, 0
  {
    if Properties(schema).Some? {
      var properties := Properties(schema).value;
      forall k | k in v.fields
        ensures k in Branch(schema, v).value.fields && Extends(v.fields[k], Branch(schema, v).value.fields[k]) {
        if k in properties {
          ChildExtends(properties[k], v.fields[k]);
        }
      }
    }
  }

  lemma DeeperExtends(schema: Value, v: Value)
    requires Deeper(schema, v).Some?
    ensures Extends(v, Deeper(schema, v).value) && (v.Obj? <==> Deeper(schema, v).value.Obj?)
  {
    if v.Obj? && Properties(schema).Some? {
      var properties := Properties(schema).value;
      forall k | k in v.fields
        ensures k in Deeper(schema, v).value.fields && Extends(v.fields[k], Deeper(schema, v).value.fields[k]) {
        if k in properties {
          ChildExtends(properties[k], v.fields[k]);
        }
      }
    }
  }

  lemma NestedExtends(schema: Value, v: Value)
    requires Nested(schema, v).Some?
    ensures Extends(v, Nested(schema, v).value) && (v.Obj? <==> Nested(schema, v).value.Obj?)
  {
    if v.Obj? && Properties(schema).Some? {
      var properties := Properties(schema).value;
      forall k | k in v.fields
        ensures k in Nested(schema, v).value.fields && Extends(v.fields[k], Nested(schema, v).value.fields[k]) {
        if k in properties && IsBranch(properties[k]) {
          DeeperExtends(properties[k], v.fields[k]);
        }
      }
    }
  }

  /** Normalising only adds keys: the top level keeps its keys, and every value that was there stays. */
  lemma NormalizeExtends(schema: Option<Value>, config: map<string, Value>)
    requires Normalize(schema, config).Some?
    ensures Normalize(schema, config).value.Keys == config.Keys
    ensures Extends(Obj(config), Obj(Normalize(schema, config).value))
  {
    if schema.Some? && Properties(schema.value).Some? {
      var properties := Properties(schema.value).value;
      forall k | k in config ensures Extends(config[k], Normalize(schema, config).value[k]) {
        if k in properties && IsBranch(properties[k]) {
          NestedExtends(properties[k], config[k]);
        }
      }
    }
  }

  // ---- Once is enough ----

  lemma {:induction false} ChildTwice(schema: Value, v: Value)
    requires Child(schema, v).Some?
    ensures Child(schema, Child(schema, v).value) == Child(schema, v)
    decreases schema, 1
  {
    if IsBranch(schema) {
      BranchExtends(schema, v);
      BranchTwice(schema, v);
    }
  }

  lemma {:induction false} BranchTwice(schema: Value, v: Value)
    requires v.Obj? && Branch(schema, v).Some?
    ensures Branch(schema, v).value.Obj? && Branch(schema, Branch(schema, v).value) == Branch(schema, v)
    decreases schema, 0
  {
    BranchExtends(schema, v);
    if Properties(schema).Some? {
      var properties, u := Properties(schema).value, Branch(schema, v).value;
      var filled := Filled(properties, v.fields);
      FilledTwice(properties, RequiredNames(schema), v.fields, u.fields);
      forall k | k in properties && k in u.fields ensures Child(properties[k], u.fields[k]) == Some(u.fields[k]) {
        ChildTwice(properties[k], filled[k]);
      }
      assert (map k | k in u.fields ::
              if k in properties then Child(properties[k], u.fields[k]).value else u.fields[k]) == u.fields;
    }
  }

  /** Once the defaults are in, none is missing. */
  lemma FilledTwice(properties: map<string, Value>, required: set<string>, given: map<string, Value>,
                    later: map<string, Value>)
    requires later.Keys == Filled(properties, given).Keys
    ensures Filled(properties, later) == later
    ensures !Lacks(properties, required, given) ==> !Lacks(properties, required, later)
  {
    assert forall k :: k in later <==> k in given || Fillable(properties, given, k);
    assert forall k :: Fillable(properties, later, k) ==> Fillable(properties, given, k);
  }

  lemma DeeperTwice(schema: Value, v: Value)
    requires Deeper(schema, v).Some?
    ensures Deeper(schema, Deeper(schema, v).value) == Deeper(schema, v)
  {
    if v.Obj? && Properties(schema).Some? {
      var properties, u := Properties(schema).value, Deeper(schema, v).value;
      var prepared := Opened(properties, v.fields);
      assert Opened(properties, u.fields) == u.fields;
      forall k | k in properties && k in u.fields ensures Child(properties[k], u.fields[k]) == Some(u.fields[k]) {
        ChildTwice(properties[k], prepared[k]);
      }
      assert (map k | k in u.fields ::
              if k in properties then Child(properties[k], u.fields[k]).value else u.fields[k]) == u.fields;
    }
  }

  lemma NestedTwice(schema: Value, v: Value)
    requires Nested(schema, v).Some?
    ensures Nested(schema, Nested(schema, v).value) == Nested(schema, v)
  {
    if v.Obj? && Properties(schema).Some? {
      var properties, u := Properties(schema).value, Nested(schema, v).value;
      forall k | k in properties && k in u.fields ensures Grown(properties[k], u.fields[k]) == Some(u.fields[k]) {
        if IsBranch(properties[k]) {
          DeeperTwice(properties[k], v.fields[k]);
        }
      }
      assert (map k | k in u.fields ::
              if k in properties then Grown(properties[k], u.fields[k]).value else u.fields[k]) == u.fields;
    }
  }

  /** An accepted configuration is accepted again, unchanged. */
  lemma NormalizeTwice(schema: Option<Value>, config: map<string, Value>)
    requires Normalize(schema, config).Some?
    ensures Normalize(schema, Normalize(schema, config).value) == Normalize(schema, config)
  {
    if schema.Some? && Properties(schema.value).Some? {
      var properties, d := Properties(schema.value).value, Normalize(schema, config).value;
      forall k | k in properties && k in d ensures TopLevel(properties[k], d[k]) == Some(d[k]) {
        if IsBranch(properties[k]) {
          NestedTwice(properties[k], config[k]);
        }
      }
      assert (map k | k in d :: if k in properties then TopLevel(properties[k], d[k]).value else d[k]) == d;
    }
  }

  // ---- What is reached conforms ----

  /** The schema at a path: through the properties of objects only. */
  function SchemaAt(schema: Value, path: seq<string>): Option<Value>
    decreases |path|
  {
    if path == [] then Some(schema)
    else if !HasProperty(schema, path[0]) then None
    else if |path| > 1 && !DeclaresObject(Property(schema, path[0])) then None
    else SchemaAt(Property(schema, path[0]), path[1..])
  }

  function ValueAt(v: Value, path: seq<string>): Option<Value>
    decreases |path|
  {
    if path == [] then Some(v) else if !v.Obj? || path[0] !in v.fields then None
    else ValueAt(v.fields[path[0]], path[1..])
  }

  /** A value is what its schema declares. */
  ghost predicate Conforms(schema: Value, v: Value) {
    (DeclaresLeaf(schema) ==> Fits(schema, v)) && (DeclaresObject(schema) ==> v.Obj?)
  }

  lemma ConformsIs(schema: Value, v: Value)
    ensures Conforms(schema, v) <==>
              (IsLeaf(schema) ==> LeafOk(TypeOf(schema), schema, v)) && (IsBranch(schema) ==> v.Obj?)
  {
    ReadsTypes(schema);
    if DeclaresLeaf(schema) {
      LeafIs(schema, v);
    }
  }

  lemma {:induction false} ChildConforms(schema: Value, v: Value, path: seq<string>)
    requires Child(schema, v).Some? && (path != [] ==> IsBranch(schema))
    requires SchemaAt(schema, path).Some? && ValueAt(Child(schema, v).value, path).Some?
    ensures Conforms(SchemaAt(schema, path).value, ValueAt(Child(schema, v).value, path).value)
    decreases |path|
  {
    ConformsIs(schema, Child(schema, v).value);
    if IsBranch(schema) {
      BranchExtends(schema, v);
      if path != [] {
        var properties, k := Properties(schema).value, path[0];
        ChildConforms(properties[k], Filled(properties, v.fields)[k], path[1..]);
      }
    }
  }

  lemma DeeperConforms(schema: Value, v: Value, path: seq<string>)
    requires Deeper(schema, v).Some? && path != []
    requires SchemaAt(schema, path).Some? && ValueAt(Deeper(schema, v).value, path).Some?
    ensures Conforms(SchemaAt(schema, path).value, ValueAt(Deeper(schema, v).value, path).value)
  {
    var properties, k := Properties(schema).value, path[0];
    ChildConforms(properties[k], Opened(properties, v.fields)[k], path[1..]);
  }

  /** Every value that the schema reaches at depth three or more has its declared type and enumeration. */
  lemma NormalizedConforms(schema: Value, config: map<string, Value>, path: seq<string>)
    requires Normalize(Some(schema), config).Some? && |path| >= 3
    requires SchemaAt(schema, path).Some? && ValueAt(Obj(Normalize(Some(schema), config).value), path).Some?
    ensures Conforms(SchemaAt(schema, path).value, ValueAt(Obj(Normalize(Some(schema), config).value), path).value)
  {
    var d, a, b := Normalize(Some(schema), config).value, path[0], path[1];
    var outer := Properties(schema).value[a];
    var inner := Properties(outer).value[b];
    assert path[1..][0] == b && path[1..][1..] == path[2..];
    assert d[a] == Nested(outer, config[a]).value;
    assert d[a].fields[b] == Deeper(inner, config[a].fields[b]).value;
    DeeperConforms(inner, config[a].fields[b], path[2..]);
  }

  // ---- What is rejected ----

  /** A fault of the given value at a path of its schema: it does not conform, or it is an object without a demanded
      leaf that offers no default. */
  ghost predicate Fault(schema: Value, v: Value, path: seq<string>) {
    && (path != [] ==> DeclaresObject(schema))
    && SchemaAt(schema, path).Some? && ValueAt(v, path).Some?
    && FaultHere(SchemaAt(schema, path).value, ValueAt(v, path).value)
  }

  ghost predicate FaultHere(schema: Value, v: Value) {
    !Conforms(schema, v) || (DeclaresObject(schema) && exists k :: LacksLeaf(schema, v.fields, k))
  }

  ghost predicate LacksLeaf(schema: Value, given: map<string, Value>, k: string) {
    && HasProperty(schema, k) && Demands(schema, k) && k !in given
    && DeclaresLeaf(Property(schema, k)) && OffersNothing(Property(schema, k))
  }

  lemma LacksIs(schema: Value, given: map<string, Value>)
    ensures (Properties(schema).Some? && Lacks(Properties(schema).value, RequiredNames(schema), given)) <==>
            exists k :: LacksLeaf(schema, given, k)
  {
    ReadsTypes(schema);
    forall k | HasProperty(schema, k)
      ensures LacksLeaf(schema, given, k) <==>
                && k in RequiredNames(schema) && k !in given && IsLeaf(Property(schema, k))
                && LeafDefault(TypeOf(Property(schema, k)), Property(schema, k)).None? {
      ReadsRequired(schema, k);
      NoDefaultIs(Property(schema, k));
    }
  }

  lemma FaultHereIs(schema: Value, v: Value)
    ensures FaultHere(schema, v) <==>
              || (IsLeaf(schema) && !LeafOk(TypeOf(schema), schema, v))
              || (IsBranch(schema) && (!v.Obj? || (Properties(schema).Some?
                  && Lacks(Properties(schema).value, RequiredNames(schema), v.fields))))
  {
    ReadsTypes(schema);
    ConformsIs(schema, v);
    if v.Obj? {
      LacksIs(schema, v.fields);
    }
  }

  lemma {:induction false} FaultRejects(schema: Value, v: Value, path: seq<string>)
    requires Fault(schema, v, path)
    ensures Child(schema, v).None?
    decreases |path|
  {
    FaultHereIs(schema, v);
    if path != [] {
      var properties, k := Properties(schema).value, path[0];
      FaultRejects(properties[k], v.fields[k], path[1..]);
      assert k in Filled(properties, v.fields) && Filled(properties, v.fields)[k] == v.fields[k];
    }
  }

  /** A default conforms to its own schema, so filling it in never causes a rejection. */
  lemma DefaultConforms(schema: Value)
    requires IsLeaf(schema) && LeafDefault(TypeOf(schema), schema).Some?
    ensures Child(schema, LeafDefault(TypeOf(schema), schema).value).Some?
  {
  }

  lemma {:induction false} RejectionHasFault(schema: Value, v: Value) returns (path: seq<string>)
    requires Child(schema, v).None?
    ensures Fault(schema, v, path)
    decreases schema
  {
    path := [];
    FaultHereIs(schema, v);
    if !FaultHere(schema, v) {
      var properties := Properties(schema).value;
      var filled := Filled(properties, v.fields);
      var k :| k in properties && k in filled && Child(properties[k], filled[k]).None?;
      if k !in v.fields {
        DefaultConforms(properties[k]);
      }
      var rest := RejectionHasFault(properties[k], v.fields[k]);
      path := [k] + rest;
      assert path[1..] == rest;
    }
  }

  /** From the third level down a value is rejected exactly when it has a fault somewhere: defaults that are filled in
      never cause one, and nothing else is held against it. */
  lemma RejectedExactly(schema: Value, v: Value)
    ensures Child(schema, v).None? <==> exists path :: Fault(schema, v, path)
  {
    if Child(schema, v).None? {
      var path := RejectionHasFault(schema, v);
    } else {
      forall path ensures !Fault(schema, v, path) {
        if Fault(schema, v, path) {
          FaultRejects(schema, v, path);
        }
      }
    }
  }

  // ---- What is added ----

  /** The keys that normalising adds to one object: missing leaves that offer a default, each with that default. */
  ghost predicate AddsDefaults(schema: Value, before: map<string, Value>, after: map<string, Value>) {
    && (forall k :: k in after <==> k in before || (HasProperty(schema, k) && !OffersNothing(Property(schema, k))))
    && (forall k :: k in after && k !in before ==> Offers(Property(schema, k), after[k]))
  }

  lemma FilledIs(schema: Value, given: map<string, Value>, k: string)
    requires HasProperty(schema, k) && k !in given
    ensures k in Filled(Properties(schema).value, given) <==> !OffersNothing(Property(schema, k))
    ensures k in Filled(Properties(schema).value, given) ==>
              Offers(Property(schema, k), Filled(Properties(schema).value, given)[k])
  {
    var p := Property(schema, k);
    if IsLeaf(p) && LeafDefault(TypeOf(p), p).Some? {
      DefaultIs(p, LeafDefault(TypeOf(p), p).value);
    } else {
      forall d ensures !Offers(p, d) {
        DefaultIs(p, d);
      }
    }
  }

  lemma FilledLeafStays(schema: Value, d: Value)
    requires Offers(schema, d) && Child(schema, d).Some?
    ensures Child(schema, d) == Some(d)
  {
    ReadsTypes(schema);
  }

  lemma BranchAdds(schema: Value, v: Value)
    requires v.Obj? && Branch(schema, v).Some?
    ensures Branch(schema, v).value.Obj? && AddsDefaults(schema, v.fields, Branch(schema, v).value.fields)
  {
    BranchExtends(schema, v);
    ReadsTypes(schema);
    forall k | HasProperty(schema, k) && k !in v.fields
      ensures k in Branch(schema, v).value.fields <==> !OffersNothing(Property(schema, k))
      ensures k in Branch(schema, v).value.fields ==> Offers(Property(schema, k), Branch(schema, v).value.fields[k]) {
      FilledIs(schema, v.fields, k);
      if k in Filled(Properties(schema).value, v.fields) {
        FilledLeafStays(Property(schema, k), Filled(Properties(schema).value, v.fields)[k]);
      }
    }
  }

  /** Every object that the schema reaches, at any depth, gets exactly its missing defaults. */
  lemma {:induction false} AddsExactly(schema: Value, v: Value, path: seq<string>)
    requires Child(schema, v).Some? && DeclaresObject(schema)
    requires SchemaAt(schema, path).Some? && DeclaresObject(SchemaAt(schema, path).value) && ValueAt(v, path).Some?
    ensures var x, y := ValueAt(v, path).value, ValueAt(Child(schema, v).value, path);
            x.Obj? && y.Some? && y.value.Obj? && AddsDefaults(SchemaAt(schema, path).value, x.fields, y.value.fields)
    decreases |path|
  {
    if path == [] {
      BranchAdds(schema, v);
    } else {
      var properties, k := Properties(schema).value, path[0];
      BranchExtends(schema, v);
      assert Filled(properties, v.fields)[k] == v.fields[k];
      AddsExactly(properties[k], v.fields[k], path[1..]);
    }
  }

  /** No schema that declares an object is reached at the path. */
  predicate Plain(schema: Value, path: seq<string>) {
    SchemaAt(schema, path).None? || !DeclaresObject(SchemaAt(schema, path).value)
  }

  /** A given value stays as it is wherever the schema declares no object, whatever it holds. */
  lemma {:induction false} PlainStays(schema: Value, v: Value, path: seq<string>)
    requires Child(schema, v).Some? && ValueAt(v, path).Some? && Plain(schema, path)
    ensures ValueAt(Child(schema, v).value, path) == ValueAt(v, path)
    decreases |path|
  {
    ReadsTypes(schema);
    if IsBranch(schema) {
      var k := path[0];
      BranchExtends(schema, v);
      if HasProperty(schema, k) {
        var p := Property(schema, k);
        ReadsTypes(p);
        assert Filled(Properties(schema).value, v.fields)[k] == v.fields[k];
        if DeclaresObject(p) || |path| == 1 {
          PlainStays(p, v.fields[k], path[1..]);
        }
      }
    }
  }

  // ---- The two upper levels are laxer ----

  /** Above depth three a leaf conforms in type only, and an object property may hold anything. */
  ghost predicate ConformsLoosely(schema: Value, v: Value) {
    DeclaresLeaf(schema) ==> OfType(LeafType(schema), v)
  }

  lemma LooselyIs(schema: Value, v: Value)
    ensures ConformsLoosely(schema, v) <==> (IsLeaf(schema) ==> MatchesType(TypeOf(schema), v))
  {
    ReadsTypes(schema);
    if DeclaresLeaf(schema) {
      LeafIs(schema, v);
    }
  }

  lemma NestedConformsLoosely(schema: Value, v: Value, k: string)
    requires Nested(schema, v).Some? && SchemaAt(schema, [k]).Some? && Field(Nested(schema, v).value, k).Some?
    ensures ConformsLoosely(SchemaAt(schema, [k]).value, Field(Nested(schema, v).value, k).value)
  {
    assert SchemaAt(schema, [k]) == Some(Properties(schema).value[k]);
    LooselyIs(Properties(schema).value[k], Field(Nested(schema, v).value, k).value);
  }

  lemma NormalizedConformsLoosely(schema: Value, config: map<string, Value>, path: seq<string>)
    requires Normalize(Some(schema), config).Some? && 0 < |path| < 3
    requires SchemaAt(schema, path).Some? && ValueAt(Obj(Normalize(Some(schema), config).value), path).Some?
    ensures ConformsLoosely(SchemaAt(schema, path).value,
                            ValueAt(Obj(Normalize(Some(schema), config).value), path).value)
  {
    var d, a := Normalize(Some(schema), config).value, path[0];
    var outer := Properties(schema).value[a];
    assert d[a] == TopLevel(outer, config[a]).value;
    if |path| == 1 {
      assert path == [a];
      LooselyIs(outer, d[a]);
    } else {
      assert path[1..] == [path[1]];
      assert ValueAt(d[a], [path[1]]) == Field(d[a], path[1]) by {
        assert [path[1]][1..] == [];
      }
      NestedConformsLoosely(outer, config[a], path[1]);
    }
  }

  /** What a given value must be for the normalised one to conform, when only its type was checked. */
  ghost predicate Suits(schema: Value, given: Value) {
    (DeclaresLeaf(schema) ==> Admits(schema, LeafType(schema), given)) && (DeclaresObject(schema) ==> given.Obj?)
  }

  lemma TopLevelConforms(schema: Value, v: Value)
    requires TopLevel(schema, v).Some?
    ensures Conforms(schema, TopLevel(schema, v).value) <==> Suits(schema, v)
  {
    ReadsTypes(schema);
    if DeclaresLeaf(schema) {
      LeafIs(schema, v);
    }
    if IsBranch(schema) {
      NestedExtends(schema, v);
    }
  }

  lemma GrownConforms(schema: Value, v: Value)
    requires Grown(schema, v).Some?
    ensures Conforms(schema, Grown(schema, v).value) <==> Suits(schema, v)
  {
    ReadsTypes(schema);
    if DeclaresLeaf(schema) {
      LeafIs(schema, v);
    }
    if IsBranch(schema) {
      DeeperExtends(schema, v);
    }
  }

  lemma OneStep(v: Value, k: string)
    ensures ValueAt(v, [k]) == Field(v, k)
  {
    assert [k][1..] == [];
  }

  /** At the two upper levels of an accepted configuration, a value conforms exactly when the given one was in the
      enumeration of its leaf, or an object where one is declared; no value appears there that was not given. */
  lemma UpperLevelsConformExactly(schema: Value, config: map<string, Value>, path: seq<string>)
    requires Normalize(Some(schema), config).Some? && 0 < |path| < 3 && SchemaAt(schema, path).Some?
    ensures var (given, value) := (ValueAt(Obj(config), path),
                                   ValueAt(Obj(Normalize(Some(schema), config).value), path));
            && (given.Some? <==> value.Some?)
            && (given.Some? ==>
                  (Conforms(SchemaAt(schema, path).value, value.value) <==>
                   Suits(SchemaAt(schema, path).value, given.value)))
  {
    var d, a := Normalize(Some(schema), config).value, path[0];
    var outer := Properties(schema).value[a];
    if a in config {
      assert d[a] == TopLevel(outer, config[a]).value;
      if |path| == 1 {
        assert path == [a];
        TopLevelConforms(outer, config[a]);
      } else {
        assert path[1..] == [path[1]];
        SecondLevel(outer, config[a], path[1]);
      }
    }
  }

  lemma SecondLevel(schema: Value, v: Value, k: string)
    requires TopLevel(schema, v).Some? && IsBranch(schema) && SchemaAt(schema, [k]).Some?
    ensures var (given, value) := (ValueAt(v, [k]), ValueAt(TopLevel(schema, v).value, [k]));
            && (given.Some? <==> value.Some?)
            && (given.Some? ==>
                  (Conforms(SchemaAt(schema, [k]).value, value.value) <==>
                   Suits(SchemaAt(schema, [k]).value, given.value)))
  {
    var properties := Properties(schema).value;
    assert SchemaAt(schema, [k]) == Some(properties[k]);
    OneStep(v, k);
    OneStep(TopLevel(schema, v).value, k);
    if Field(v, k).Some? {
      GrownConforms(properties[k], v.fields[k]);
    }
  }

  function Declares(key: string, schema: Value): Value {
    Obj(map["type" := Text("object"), "properties" := Obj(map[key := schema])])
  }

  lemma DeclaresIs(key: string, schema: Value)
    ensures IsBranch(Declares(key, schema)) && RequiredNames(Declares(key, schema)) == {}
    ensures Properties(Declares(key, schema)) == Some(map[key := schema])
  {
    TrimSpaceFixes("object");
    assert Field(Declares(key, schema), "type") == Some(Text("object"));
    assert Field(Declares(key, schema), "properties") == Some(Obj(map[key := schema]));
  }

  lemma NestedKeeps(b: string, schema: Value, v: Value)
    requires Grown(schema, v) == Some(v)
    ensures Nested(Declares(b, schema), Obj(map[b := v])) == Some(Obj(map[b := v]))
  {
    DeclaresIs(b, schema);
    var grown := Nested(Declares(b, schema), Obj(map[b := v]));
    assert grown.Some? && grown.value.fields.Keys == {b} && grown.value.fields[b] == v;
    assert grown.value.fields == map[b := v];
  }

  lemma PassesAsItIs(a: string, b: string, schema: Value, v: Value)
    requires Grown(schema, v) == Some(v)
    ensures var (whole, config) := (Declares(a, Declares(b, schema)), map[a := Obj(map[b := v])]);
            && Normalize(Some(whole), config) == Some(config)
            && SchemaAt(whole, [a, b]) == Some(schema) && ValueAt(Obj(config), [a, b]) == Some(v)
  {
    DeclaresIs(a, Declares(b, schema));
    DeclaresIs(b, schema);
    assert [a, b][1..] == [b] && [b][1..] == [];
    var inner := Obj(map[b := v]);
    NestedKeeps(b, schema, v);
    var d := Normalize(Some(Declares(a, Declares(b, schema))), map[a := inner]);
    assert d.Some? && d.value.Keys == {a} && d.value[a] == inner;
    assert d.value == map[a := inner];
    assert SchemaAt(Declares(b, schema), [b]) == Some(schema);
    assert ValueAt(inner, [b]) == Some(v);
  }

  const CHOICE := Obj(map["type" := Text("string"), "enum" := List([Text("a")])])
  const OBJECT := Obj(map["type" := Text("object")])

  lemma TextIsGrown(v: string)
    requires v != "a"
    ensures Grown(CHOICE, Text(v)) == Some(Text(v)) && !Conforms(CHOICE, Text(v))
    ensures Grown(OBJECT, Text(v)) == Some(Text(v)) && !Conforms(OBJECT, Text(v))
  {
    TrimSpaceFixes("string");
    TrimSpaceFixes("object");
    assert "type"[0] != "enum"[0];
    assert TypeOf(CHOICE) == "string";
    assert Field(CHOICE, "enum") == Some(List([Text("a")]));
    assert !SameValue("string", Text("a"), Text(v));
  }

  /** Configurations that pass as they are although a second-level value, a text, is outside the enumeration declared
      for it, or stands where an object is declared. */
  lemma DepthTwoIsLax(a: string, b: string, v: string, schema: Value)
    requires schema in {CHOICE, OBJECT} && v != "a"
    ensures var (whole, config) := (Declares(a, Declares(b, schema)), map[a := Obj(map[b := Text(v)])]);
            && Normalize(Some(whole), config) == Some(config)
            && SchemaAt(whole, [a, b]) == Some(schema) && ValueAt(Obj(config), [a, b]) == Some(Text(v))
            && !Conforms(schema, Text(v))
  {
    TextIsGrown(v);
    PassesAsItIs(a, b, schema, Text(v));
  }
}
