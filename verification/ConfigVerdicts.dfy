/** Which whole configurations are rejected, and what normalising adds to the others. */
module ConfigVerdicts {
  import opened Base
  import opened ConfigSpec
  import opened ConfigMerges
  import opened ConfigLaws
  import opened Schemas

  ghost predicate Misses(schema: Value, given: map<string, Value>) {
    exists name :: Demands(schema, name) && name !in given
  }

  lemma MissesIs(schema: Value, given: map<string, Value>)
    ensures Misses(schema, given) <==> exists name :: name in RequiredNames(schema) && name !in given
  {
    forall name ensures name in RequiredNames(schema) <==> Demands(schema, name) {
      ReadsRequired(schema, name);
    }
  }

  /** A fault of the first two levels: a required name is missing from the whole or from a second-level object, or a
      leaf has the wrong type. */
  ghost predicate UpperFault(schema: Value, config: map<string, Value>, path: seq<string>) {
    && |path| < 3 && SchemaAt(schema, path).Some? && ValueAt(Obj(config), path).Some?
    && var (s, v) := (SchemaAt(schema, path).value, ValueAt(Obj(config), path).value);
    if path == [] then HasTable(schema) && Misses(schema, config)
    else
      || !ConformsLoosely(s, v)
      || (|path| == 2 && DeclaresObject(s) && v.Obj? && Misses(s, v.fields))
  }

  /** A fault below: somewhere in a third-level value, which is an empty object where one is declared and none given. */
  ghost predicate LowerFault(schema: Value, config: map<string, Value>, path: seq<string>, rest: seq<string>) {
    && |path| == 3 && SchemaAt(schema, path[..2]).Some? && SchemaAt(schema, path).Some?
    && ValueAt(Obj(config), path[..2]).Some? && ValueAt(Obj(config), path[..2]).value.Obj?
    && var (s, fields) := (SchemaAt(schema, path).value, ValueAt(Obj(config), path[..2]).value.fields);
    (path[2] in fields || DeclaresObject(s)) && Fault(s, Seed(fields, path[2]), rest)
  }

  // ---- Rejection, level by level ----

  /** A second-level object is rejected exactly for a missing required name or a fault of a third-level value. */
  ghost predicate DeeperFault(schema: Value, fields: map<string, Value>, k: string, rest: seq<string>) {
    && HasProperty(schema, k) && (k in fields || DeclaresObject(Property(schema, k)))
    && Fault(Property(schema, k), Seed(fields, k), rest)
  }

  lemma DeeperRejects(schema: Value, v: Value)
    requires v.Obj?
    ensures Deeper(schema, v).None? <==> Misses(schema, v.fields) || exists k, rest ::
            DeeperFault(schema, v.fields, k, rest)
  {
    MissesIs(schema, v.fields);
    if !Misses(schema, v.fields) && Properties(schema).Some? {
      var properties := Properties(schema).value;
      var prepared := Opened(properties, v.fields);
      if Deeper(schema, v).None? {
        var k :| k in properties && k in prepared && Child(properties[k], prepared[k]).None?;
        OpenedAt(properties, v.fields, k);
        var rest := RejectionHasFault(properties[k], prepared[k]);
        assert DeeperFault(schema, v.fields, k, rest);
      }
      forall k, rest | DeeperFault(schema, v.fields, k, rest) ensures Deeper(schema, v).None? {
        OpenedAt(properties, v.fields, k);
        FaultRejects(properties[k], prepared[k], rest);
      }
    }
  }

  /** The first-level property at fault. */
  predicate TopFault(schema: Value, config: map<string, Value>, a: string) {
    && Properties(schema).Some? && a in Properties(schema).value && a in config
    && TopLevel(Properties(schema).value[a], config[a]).None?
  }

  lemma WholeRejects(schema: Value, config: map<string, Value>)
    ensures Normalize(Some(schema), config).None? <==>
              Properties(schema).Some? && (Misses(schema, config) || exists a :: TopFault(schema, config, a))
  {
    MissesIs(schema, config);
    if Properties(schema).Some? {
      var properties := Properties(schema).value;
      if exists a :: a in properties && a in config && TopLevel(properties[a], config[a]).None? {
        var a :| a in properties && a in config && TopLevel(properties[a], config[a]).None?;
        assert TopFault(schema, config, a);
      }
    }
  }

  /** The second-level property at fault. */
  predicate InnerFault(outer: Value, v: Value, b: string) {
    && IsBranch(outer) && v.Obj? && Properties(outer).Some? && b in Properties(outer).value && b in v.fields
    && Grown(Properties(outer).value[b], v.fields[b]).None?
  }

  lemma TopRejects(outer: Value, v: Value)
    ensures TopLevel(outer, v).None? <==>
              (IsLeaf(outer) && !MatchesType(TypeOf(outer), v)) || exists b :: InnerFault(outer, v, b)
  {
    if IsBranch(outer) && Properties(outer).Some? && v.Obj? {
      var properties := Properties(outer).value;
      if exists b :: b in properties && b in v.fields && Grown(properties[b], v.fields[b]).None? {
        var b :| b in properties && b in v.fields && Grown(properties[b], v.fields[b]).None?;
        assert InnerFault(outer, v, b);
      }
    }
  }

  lemma GrownRejects(inner: Value, v: Value)
    ensures Grown(inner, v).None? <==>
              || !ConformsLoosely(inner, v)
              || (IsBranch(inner) && v.Obj?
                  && (Misses(inner, v.fields) || exists k, rest :: DeeperFault(inner, v.fields, k, rest)))
  {
    LooselyIs(inner, v);
    if IsBranch(inner) && v.Obj? {
      DeeperRejects(inner, v);
    }
  }

  // ---- The same, by paths ----

  /** A second-level property that the schema names and the configuration holds. */
  predicate Inner(schema: Value, config: map<string, Value>, a: string, b: string) {
    && HasProperty(schema, a) && a in config && var (outer, v) := (Property(schema, a), config[a]);
    && DeclaresObject(outer) && v.Obj? && HasProperty(outer, b) && b in v.fields
  }

  function InnerSchema(schema: Value, config: map<string, Value>, a: string, b: string): Value
    requires Inner(schema, config, a, b)
  {
    Property(Property(schema, a), b)
  }

  function InnerValue(schema: Value, config: map<string, Value>, a: string, b: string): Value
    requires Inner(schema, config, a, b)
  {
    config[a].fields[b]
  }

  /** The properties of a schema, none when it has no usable table of them. */
  function Table(schema: Value): map<string, Value> {
    if Properties(schema).Some? then Properties(schema).value else map[]
  }

  lemma OneStepOn(schema: Value, v: Value, k: string)
    ensures SchemaAt(schema, [k]) == if k in Table(schema) then Some(Table(schema)[k]) else None
    ensures ValueAt(v, [k]) == Field(v, k)
  {
    assert [k][1..] == [];
  }

  lemma FirstPath(schema: Value, config: map<string, Value>, a: string)
    ensures UpperFault(schema, config, [a]) <==>
              && Properties(schema).Some? && a in Properties(schema).value && a in config
              && IsLeaf(Properties(schema).value[a]) && !MatchesType(TypeOf(Properties(schema).value[a]), config[a])
  {
    OneStepOn(schema, Obj(config), a);
    if HasProperty(schema, a) && a in config {
      LooselyIs(Property(schema, a), config[a]);
    }
  }

  lemma SecondPath(schema: Value, config: map<string, Value>, a: string, b: string)
    ensures SchemaAt(schema, [a, b]).Some? && ValueAt(Obj(config), [a, b]).Some? <==> Inner(schema, config, a, b)
    ensures Inner(schema, config, a, b) ==>
              && SchemaAt(schema, [a, b]) == Some(InnerSchema(schema, config, a, b))
              && ValueAt(Obj(config), [a, b]) == Some(InnerValue(schema, config, a, b))
  {
    assert [a, b][1..] == [b];
    if Properties(schema).Some? && a in Properties(schema).value && a in config {
      OneStepOn(Properties(schema).value[a], config[a], b);
    }
  }

  lemma ThirdPath(schema: Value, config: map<string, Value>, a: string, b: string, k: string)
    requires Inner(schema, config, a, b)
    ensures var inner := InnerSchema(schema, config, a, b);
            SchemaAt(schema, [a, b, k])
            == if IsBranch(inner) && Properties(inner).Some? && k in Properties(inner).value
               then Some(Properties(inner).value[k]) else None
  {
    assert [a, b, k][1..] == [b, k] && [b, k][1..] == [k];
    OneStepOn(InnerSchema(schema, config, a, b), Null, k);
    assert SchemaAt(Properties(schema).value[a], [b, k])
        == if IsBranch(InnerSchema(schema, config, a, b)) then SchemaAt(InnerSchema(schema, config, a, b), [k])
          else None;
  }

  /** A second-level value is at fault exactly when it, or something below it, is. */
  lemma GrownFaults(schema: Value, config: map<string, Value>, a: string, b: string)
    requires Inner(schema, config, a, b)
    ensures Grown(InnerSchema(schema, config, a, b), InnerValue(schema, config, a, b)).None? <==>
              UpperFault(schema, config, [a, b]) || exists k, rest :: LowerFault(schema, config, [a, b, k], rest)
  {
    var (inner, v) := (InnerSchema(schema, config, a, b), InnerValue(schema, config, a, b));
    SecondPath(schema, config, a, b);
    GrownRejects(inner, v);
    forall k, rest
      ensures LowerFault(schema, config, [a, b, k], rest) <==>
              IsBranch(inner) && v.Obj? && DeeperFault(inner, v.fields, k, rest) {
      ThirdPath(schema, config, a, b, k);
      assert [a, b, k][..2] == [a, b];
    }
  }

  ghost predicate Faulty(schema: Value, config: map<string, Value>) {
    || (exists path :: UpperFault(schema, config, path))
    || (exists path, rest :: LowerFault(schema, config, path, rest))
  }

  lemma RejectionIsFault(schema: Value, config: map<string, Value>)
    requires Normalize(Some(schema), config).None?
    ensures Faulty(schema, config)
  {
    WholeRejects(schema, config);
    if Misses(schema, config) {
      assert UpperFault(schema, config, []);
    } else {
      var a :| TopFault(schema, config, a);
      var outer := Properties(schema).value[a];
      TopRejects(outer, config[a]);
      FirstPath(schema, config, a);
      if !UpperFault(schema, config, [a]) {
        var b :| InnerFault(outer, config[a], b);
        GrownFaults(schema, config, a, b);
      }
    }
  }

  lemma InnerFaultRejects(schema: Value, config: map<string, Value>, a: string, b: string)
    requires Inner(schema, config, a, b)
    requires Grown(InnerSchema(schema, config, a, b), InnerValue(schema, config, a, b)).None?
    ensures Normalize(Some(schema), config).None?
  {
    var outer := Properties(schema).value[a];
    assert InnerFault(outer, config[a], b);
    TopRejects(outer, config[a]);
    assert TopFault(schema, config, a);
    WholeRejects(schema, config);
  }

  lemma UpperFaultRejects(schema: Value, config: map<string, Value>, path: seq<string>)
    requires UpperFault(schema, config, path)
    ensures Normalize(Some(schema), config).None?
  {
    WholeRejects(schema, config);
    if |path| == 1 {
      assert path == [path[0]];
      FirstPath(schema, config, path[0]);
      TopRejects(Properties(schema).value[path[0]], config[path[0]]);
      assert TopFault(schema, config, path[0]);
    } else if |path| == 2 {
      assert path == [path[0], path[1]];
      SecondPath(schema, config, path[0], path[1]);
      GrownFaults(schema, config, path[0], path[1]);
      InnerFaultRejects(schema, config, path[0], path[1]);
    }
  }

  lemma LowerFaultRejects(schema: Value, config: map<string, Value>, path: seq<string>, rest: seq<string>)
    requires LowerFault(schema, config, path, rest)
    ensures Normalize(Some(schema), config).None?
  {
    var (a, b) := (path[0], path[1]);
    assert path[..2] == [a, b] && path == [a, b, path[2]];
    SecondPath(schema, config, a, b);
    GrownFaults(schema, config, a, b);
    InnerFaultRejects(schema, config, a, b);
  }

  /** A whole configuration is rejected exactly when it has a fault of the first two levels or one below them. */
  lemma ConfigRejectedExactly(schema: Value, config: map<string, Value>)
    ensures Normalize(Some(schema), config).None? <==> Faulty(schema, config)
  {
    if Normalize(Some(schema), config).None? {
      RejectionIsFault(schema, config);
    } else if exists path :: UpperFault(schema, config, path) {
      var path :| UpperFault(schema, config, path);
      UpperFaultRejects(schema, config, path);
    } else if exists path, rest :: LowerFault(schema, config, path, rest) {
      var path, rest :| LowerFault(schema, config, path, rest);
      LowerFaultRejects(schema, config, path, rest);
    }
  }

  // ---- What is added ----

  /** What becomes of the fields of a second-level object: third-level objects that are declared and missing are added,
      and every third-level value is normalised, the added ones from the empty object; nothing else is added or
      changed. */
  ghost predicate OpensFields(inner: Value, before: map<string, Value>, after: map<string, Value>) {
    && (forall k :: k in after <==> k in before || (HasProperty(inner, k) && DeclaresObject(Property(inner, k))))
    && forall k :: k in after ==>
         if HasProperty(inner, k) then Some(after[k]) == Child(Property(inner, k), Seed(before, k))
         else k in before && after[k] == before[k]
  }

  lemma DeeperOpens(inner: Value, v: Value)
    requires v.Obj? && Deeper(inner, v).Some?
    ensures Deeper(inner, v).value.Obj? && OpensFields(inner, v.fields, Deeper(inner, v).value.fields)
  {
    DeeperExtends(inner, v);
    if Properties(inner).Some? {
      forall k | k in Opened(Table(inner), v.fields) && k in Table(inner)
        ensures Opened(Table(inner), v.fields)[k] == Seed(v.fields, k) {
        OpenedAt(Table(inner), v.fields, k);
      }
    } else {
      assert Opened(map[], v.fields).Keys == v.fields.Keys;
    }
  }

  /** What normalising adds to an accepted configuration: no key to the whole or to a first-level object, and to a
      second-level object exactly the third-level objects that are declared and missing. A second-level value that is no
      object of a declared one stays as it is. */
  lemma ConfigAddsExactly(schema: Value, config: map<string, Value>, a: string, b: string)
    requires Normalize(Some(schema), config).Some? && Inner(schema, config, a, b)
    ensures var (d, inner, v) := (Normalize(Some(schema), config).value, InnerSchema(schema, config, a, b),
                                  InnerValue(schema, config, a, b));
            && d.Keys == config.Keys && d[a].Obj? && d[a].fields.Keys == config[a].fields.Keys
            && var after := d[a].fields[b];
            if DeclaresObject(inner) && v.Obj? then after.Obj? && OpensFields(inner, v.fields, after.fields)
            else after == v
  {
    var (inner, v) := (InnerSchema(schema, config, a, b), InnerValue(schema, config, a, b));
    var outer := Properties(schema).value[a];
    var d := Normalize(Some(schema), config).value;
    assert d[a] == Nested(outer, config[a]).value;
    assert d[a].fields[b] == Grown(inner, v).value;
    if IsBranch(inner) && v.Obj? {
      DeeperOpens(inner, v);
    }
  }

  /** The given value at a path of three names or more: a third-level object that is declared and missing counts as
      empty. */
  function GivenAt(schema: Value, config: map<string, Value>, path: seq<string>): Option<Value>
    requires |path| >= 3
  {
    if Inner(schema, config, path[0], path[1]) && InnerValue(schema, config, path[0], path[1]).Obj?
    then ValueAt(Seed(InnerValue(schema, config, path[0], path[1]).fields, path[2]), path[3..]) else None
  }

  /** In an accepted configuration every object from the third level down that its schema declares has, besides what it
      was given, exactly the leaves that were missing and offer a default, each with that default. */
  lemma WholeAddsExactly(schema: Value, config: map<string, Value>, path: seq<string>)
    requires Normalize(Some(schema), config).Some? && |path| >= 3
    requires SchemaAt(schema, path).Some? && DeclaresObject(SchemaAt(schema, path).value)
    requires GivenAt(schema, config, path).Some?
    ensures var (given, d) := (GivenAt(schema, config, path).value, Normalize(Some(schema), config).value);
            && given.Obj? && ValueAt(Obj(d), path).Some? && ValueAt(Obj(d), path).value.Obj?
            && AddsDefaults(SchemaAt(schema, path).value, given.fields, ValueAt(Obj(d), path).value.fields)
  {
    var (a, b, k) := (path[0], path[1], path[2]);
    var (inner, v) := (InnerSchema(schema, config, a, b), InnerValue(schema, config, a, b));
    var d := Normalize(Some(schema), config).value;
    ConfigAddsExactly(schema, config, a, b);
    assert path[1..][1..] == path[2..] && path[2..][1..] == path[3..] && path[1..][0] == b && path[2..][0] == k;
    assert SchemaAt(schema, path) == SchemaAt(inner, path[2..]) == SchemaAt(Property(inner, k), path[3..]);
    var third := d[a].fields[b].fields[k];
    AddsExactly(Property(inner, k), Seed(v.fields, k), path[3..]);
    assert ValueAt(Obj(d), path) == ValueAt(d[a].fields[b], path[2..]) == ValueAt(third, path[3..]);
  }

  // ---- What stays ----

  /** Without a schema, or with one that has no table of properties, every configuration is accepted as it is. */
  lemma NoTableStays(schema: Option<Value>, config: map<string, Value>)
    requires schema.None? || !HasTable(schema.value)
    ensures Normalize(schema, config) == Some(config)
  {
  }

  lemma DeeperStays(schema: Value, v: Value, path: seq<string>)
    requires DeclaresObject(schema) && Deeper(schema, v).Some? && ValueAt(v, path).Some? && path != []
    requires Plain(schema, path)
    ensures ValueAt(Deeper(schema, v).value, path) == ValueAt(v, path)
  {
    var k := path[0];
    ReadsTypes(schema);
    if HasProperty(schema, k) {
      var p := Property(schema, k);
      ReadsTypes(p);
      assert Opened(Properties(schema).value, v.fields)[k] == v.fields[k];
      if DeclaresObject(p) || |path| == 1 {
        PlainStays(p, v.fields[k], path[1..]);
      }
    } else if HasTable(schema) {
      assert Opened(Properties(schema).value, v.fields)[k] == v.fields[k];
    }
  }

  lemma GrownStays(schema: Value, v: Value, path: seq<string>)
    requires Grown(schema, v).Some? && ValueAt(v, path).Some? && Plain(schema, path)
    ensures ValueAt(Grown(schema, v).value, path) == ValueAt(v, path)
  {
    ReadsTypes(schema);
    if IsBranch(schema) {
      DeeperStays(schema, v, path);
    }
  }

  lemma TopLevelStays(schema: Value, v: Value, path: seq<string>)
    requires TopLevel(schema, v).Some? && ValueAt(v, path).Some? && Plain(schema, path)
    ensures ValueAt(TopLevel(schema, v).value, path) == ValueAt(v, path)
  {
    ReadsTypes(schema);
    if IsBranch(schema) {
      var k := path[0];
      if HasProperty(schema, k) {
        var p := Property(schema, k);
        ReadsTypes(p);
        if DeclaresObject(p) || |path| == 1 {
          GrownStays(p, v.fields[k], path[1..]);
        }
      }
    }
  }

  /** A given value of an accepted configuration stays as it is wherever the schema declares no object. */
  lemma WholeStays(schema: Value, config: map<string, Value>, path: seq<string>)
    requires Normalize(Some(schema), config).Some? && ValueAt(Obj(config), path).Some? && path != []
    requires Plain(schema, path)
    ensures ValueAt(Obj(Normalize(Some(schema), config).value), path) == ValueAt(Obj(config), path)
  {
    var a := path[0];
    ReadsTypes(schema);
    if HasProperty(schema, a) {
      var p := Property(schema, a);
      ReadsTypes(p);
      if DeclaresObject(p) || |path| == 1 {
        TopLevelStays(p, config[a], path[1..]);
      }
    }
  }
}
