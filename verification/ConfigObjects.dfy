/** Configuration objects in memory, normalised in place in whatever order their keys come
    (packages/runtime-core/plugin_host_subprocess.go). */
module ConfigObjects {
  import opened Base
  import opened ConfigMerges
  import opened ConfigSpec

  datatype Node = Leaf(v: Value) | Nest(o: ConfigObject)

  class ConfigObject {
    var fields: map<string, Node>
    ghost var content: map<string, Value>
    ghost var repr: set<ConfigObject>

    /** The object holds `content`; its nested objects are its own and overlap nowhere. */
    ghost predicate Valid()
      reads this, repr
      decreases repr
    {
      && this in repr
      && content.Keys == fields.Keys
      && (forall k :: k in fields ==>
            match fields[k]
            case Leaf(v) => content[k] == v && !v.Obj?
            case Nest(o) => o in repr && o.repr <= repr - {this} && o.Valid() && content[k] == Obj(o.content))
      && (forall k, l :: k in fields && l in fields && k != l && fields[k].Nest? && fields[l].Nest? ==>
          fields[k].o.repr !! fields[l].o.repr)
    }

    constructor ()
      ensures Valid() && fresh(repr) && content == map[]
    {
      fields, content := map[], map[];
      repr := {this};
    }

    /** Adds a field that is not there yet. */
    method Add(k: string, node: Node, ghost v: Value)
      requires Valid() && k !in fields
      requires node.Leaf? ==> node.v == v && !v.Obj?
      requires node.Nest? ==> node.o.Valid() && node.o.repr !! repr && v == Obj(node.o.content)
      modifies this
      ensures Valid() && content == old(content)[k := v] && fields == old(fields)[k := node]
      ensures repr == old(repr) + if node.Nest? then node.o.repr else {}
    {
      fields := fields[k := node];
      content := content[k := v];
      repr := repr + if node.Nest? then node.o.repr else {};
    }

    /** Copies one field into an object that shares nothing with this one. */
    method CloneInto(copy: ConfigObject, k: string)
      requires Valid() && copy.Valid() && repr !! copy.repr && k in fields && k !in copy.fields
      modifies copy
      ensures copy.Valid() && fresh(copy.repr - old(copy.repr)) && copy.content == old(copy.content)[k := content[k]]
      decreases repr, 0
    {
      match fields[k] {
        case Leaf(v) => copy.Add(k, Leaf(v), content[k]);
        case Nest(o) =>
          var child := o.Clone();
          copy.Add(k, Nest(child), content[k]);
      }
    }

    /** A deep copy that shares nothing. */
    method Clone() returns (copy: ConfigObject)
      requires Valid()
      ensures copy.Valid() && fresh(copy.repr) && copy.content == content
      decreases repr, 1
    {
      copy := new ConfigObject();
      var todo := fields.Keys;
      while todo != {}
        invariant todo <= fields.Keys && copy.Valid() && fresh(copy.repr)
        invariant copy.content.Keys == fields.Keys - todo
        invariant forall k :: k in copy.content ==> copy.content[k] == content[k]
        decreases todo
      {
        var k :| k in todo;
        CloneInto(copy, k);
        todo := todo - {k};
      }
    }

    method FillOne(properties: map<string, Value>, required: set<string>, k: string) returns (ok: bool)
      requires Valid() && k in properties
      modifies this
      ensures Valid() && fresh(repr - old(repr)) && old(repr) <= repr
      ensures ok <==> !LacksAt(properties, required, old(content), k)
      ensures content == FilledAt(properties, old(content), k)
    {
      ok := true;
      if k !in fields && IsLeaf(properties[k]) {
        var value := LeafDefault(TypeOf(properties[k]), properties[k]);
        if value.Some? {
          var node := Build(value.value);
          Add(k, node, value.value);
        } else {
          ok := k !in required;
        }
      }
    }

    /** Puts defaults in for missing leaves; fails on a missing required leaf that has none. */
    method FillDefaults(properties: map<string, Value>, required: set<string>) returns (ok: bool)
      requires Valid()
      modifies this
      ensures Valid() && fresh(repr - old(repr)) && old(repr) <= repr
      ensures ok <==> !Lacks(properties, required, old(content))
      ensures ok ==> content == Filled(properties, old(content))
    {
      ghost var given, done: set<string> := content, {};
      var todo := properties.Keys;
      NothingFilled(properties, given);
      while todo != {}
        invariant done !! todo && done + todo == properties.Keys
        invariant Valid() && fresh(repr - old(repr)) && old(repr) <= repr
        invariant content == FilledUpTo(properties, given, done) && NoneLacks(properties, required, given, done)
        decreases todo
      {
        var k :| k in todo;
        FilledMore(properties, required, given, done, k);
        ok := FillOne(properties, required, k);
        if !ok {
          return;
        }
        todo, done := todo - {k}, done + {k};
      }
      ok := true;
      AllFilled(properties, required, given, done);
    }

    /** The value that the object holds. */
    method Read() returns (v: map<string, Value>)
      requires Valid()
      ensures v == content
      decreases repr
    {
      v := map[];
      var todo := fields.Keys;
      while todo != {}
        invariant todo <= fields.Keys && v.Keys == fields.Keys - todo && forall k :: k in v ==> v[k] == content[k]
        decreases todo
      {
        var k :| k in todo;
        match fields[k] {
          case Leaf(leaf) => v := v[k := leaf];
          case Nest(o) =>
            var nested := o.Read();
            v := v[k := Obj(nested)];
        }
        todo := todo - {k};
      }
    }

    /** Everything but the nested object `k` is in order. */
    ghost predicate ValidBut(k: string)
      reads this, repr
    {
      && this in repr && content.Keys == fields.Keys
      && (forall l :: l in fields && l != k ==>
            match fields[l]
            case Leaf(v) => content[l] == v && !v.Obj?
            case Nest(o) => o in repr && o.repr <= repr - {this} && o.Valid() && content[l] == Obj(o.content))
      && (forall l, m ::
            l in fields && m in fields && l != m && l != k && m != k && fields[l].Nest? && fields[m].Nest? ==>
            fields[l].o in repr && fields[m].o in repr && fields[l].o.repr !! fields[m].o.repr)
    }

    /** Takes note of what a nested object has become. */
    ghost method Adopt(k: string)
      requires ValidBut(k) && k in fields && fields[k].Nest?
      requires fields[k].o.Valid() && this !in fields[k].o.repr
      requires forall l :: l in fields && l != k && fields[l].Nest? ==> fields[l].o.repr !! fields[k].o.repr
      modifies `content, `repr
      ensures Valid() && content == old(content)[k := Obj(fields[k].o.content)] && repr == old(repr) + fields[k].o.repr
    {
      content := content[k := Obj(fields[k].o.content)];
      repr := repr + fields[k].o.repr;
    }

    /** Whether every required name is there. */
    method HasRequired(schema: Value) returns (ok: bool)
      requires Valid()
      ensures ok <==> forall name :: name in RequiredNames(schema) ==> name in content
    {
      var required := Field(schema, "required");
      if required.None? || !required.value.List? {
        return true;
      }
      var items := required.value.items;
      for i := 0 to |items|
        invariant forall j :: 0 <= j < i && items[j].Text? && !IsBlank(items[j].s) ==> TrimSpace(items[j].s) in content
      {
        if items[i].Text? && !IsBlank(items[i].s) && TrimSpace(items[i].s) !in fields {
          assert TrimSpace(items[i].s) in NamesIn(items);
          return false;
        }
      }
      ok := true;
    }

    method ReadField(k: string) returns (v: Value)
      requires Valid() && k in fields
      ensures v == content[k]
    {
      match fields[k] {
        case Leaf(leaf) => v := leaf;
        case Nest(o) =>
          var nested := o.Read();
          v := Obj(nested);
      }
    }

    /** Normalises this object in place, as an object of its level. */
    method MergeObject(level: Level, schema: Value) returns (ok: bool)
      requires Valid()
      modifies repr
      ensures Valid() && fresh(repr - old(repr))
      ensures ok <==> ObjectAt(level, schema, old(content)).Some?
      ensures ok ==> ObjectAt(level, schema, old(content)).value == Obj(content)
      decreases schema, 2
    {
      match level {
        case First => ok := MergeNested(schema);
        case Second => ok := MergeDeeper(schema);
        case Deep => ok := MergeBranch(schema);
      }
    }

    /** Checks one field against its schema, normalising it in place if it is an object. */
    method CheckField(level: Level, schema: Value, k: string) returns (ok: bool)
      requires Valid() && k in fields
      modifies repr
      ensures Valid() && fresh(repr - old(repr)) && fields == old(fields)
      ensures ok <==> AtLevel(level, schema, old(content)[k]).Some?
      ensures ok ==> content == old(content)[k := AtLevel(level, schema, old(content)[k]).value]
      decreases schema, 3
    {
      AtLevelIs(level, schema, content[k]);
      ok := true;
      if IsBranch(schema) {
        match fields[k] {
          case Leaf(_) => ok := !level.Deep?;
          case Nest(o) =>
            ok := o.MergeObject(level, schema);
            Adopt(k);
        }
      } else if IsLeaf(schema) {
        var v := ReadField(k);
        ok := MatchesType(TypeOf(schema), v) && (level.Deep? ==> InEnum(TypeOf(schema), schema, v));
      }
    }

    /** Checks the fields that the schema names, in whatever order they come. */
    method CheckFields(level: Level, schema: Value, properties: map<string, Value>) returns (ok: bool)
      requires Valid() && Properties(schema) == Some(properties)
      modifies repr
      ensures Valid() && fresh(repr - old(repr)) && content.Keys == old(content).Keys
      ensures ok <==> NoneFails(level, properties, old(content), properties.Keys)
      ensures ok ==> Merges(level, properties, old(content), properties.Keys, content)
      decreases schema, 0
    {
      ghost var given, done: set<string> := content, {};
      var todo := properties.Keys;
      while todo != {}
        invariant done !! todo && done + todo == properties.Keys
        invariant Valid() && fresh(repr - old(repr)) && content.Keys == given.Keys
        invariant NoneFails(level, properties, given, done) && Merges(level, properties, given, done, content)
        decreases todo
      {
        var k :| k in todo;
        MergesMore(level, properties, given, done, content, k);
        if k in fields {
          ok := CheckField(level, properties[k], k);
          if !ok {
            return;
          }
        }
        todo, done := todo - {k}, done + {k};
      }
      ok := true;
      assert done == properties.Keys;
    }

    /** Normalises this object against its schema, in place: defaults first, then the children. */
    method MergeBranch(schema: Value) returns (ok: bool)
      requires Valid()
      modifies repr
      ensures Valid() && fresh(repr - old(repr))
      ensures ok <==> Branch(schema, Obj(old(content))).Some?
      ensures ok ==> Branch(schema, Obj(old(content))).value == Obj(content)
      decreases schema, 1
    {
      var properties := Properties(schema);
      if properties.None? {
        return true;
      }
      ok := FillDefaults(properties.value, RequiredNames(schema));
      if ok {
        ok := CheckFields(Deep, schema, properties.value);
      }
      BranchIs(schema, properties.value, old(content), content);
    }

    method AddObject(k: string)
      requires Valid() && k !in fields
      modifies this
      ensures Valid() && fresh(repr - old(repr)) && old(repr) <= repr && k in fields
      ensures content == old(content)[k := Obj(map[])]
      ensures forall v {:trigger content[k := v]} :: content[k := v] == old(content)[k := v]
    {
      var o := new ConfigObject();
      Add(k, Nest(o), Obj(map[]));
    }

    /** One third-level field: a missing object is created before it is normalised. */
    method OpenField(schema: Value, k: string) returns (ok: bool)
      requires Valid()
      modifies repr
      ensures Valid() && fresh(repr - old(repr))
      ensures ok <==> OpenOne(schema, old(content), k).Some?
      ensures ok ==> content == OpenOne(schema, old(content), k).value
      decreases schema, 4
    {
      if k !in fields {
        if !IsBranch(schema) {
          return true;
        }
        AddObject(k);
      }
      ok := CheckField(Deep, schema, k);
    }

    /** Opens and checks the third-level fields that the schema names, in whatever order they come. */
    method OpenFields(schema: Value, properties: map<string, Value>) returns (ok: bool)
      requires Valid() && Properties(schema) == Some(properties)
      modifies repr
      ensures Valid() && fresh(repr - old(repr))
      ensures ok <==> NoneFails(Deep, properties, Opened(properties, old(content)), properties.Keys)
      ensures ok ==> DeepMerges(properties, old(content), Opened(properties, old(content)), properties.Keys, content)
      decreases schema, 0
    {
      ghost var given, prepared, done: set<string> := content, Opened(properties, content), {};
      var todo := properties.Keys;
      while todo != {}
        invariant done !! todo && done + todo == properties.Keys
        invariant Valid() && fresh(repr - old(repr))
        invariant NoneFails(Deep, properties, prepared, done) && DeepMerges(properties, given, prepared, done, content)
        decreases todo
      {
        var k :| k in todo;
        DeepMergesOn(properties, given, done, content, k);
        ok := OpenField(properties[k], k);
        if !ok {
          return;
        }
        todo, done := todo - {k}, done + {k};
      }
      ok := true;
      assert done == properties.Keys;
    }

    /** Normalises a second-level object in place. */
    method MergeDeeper(schema: Value) returns (ok: bool)
      requires Valid()
      modifies repr
      ensures Valid() && fresh(repr - old(repr))
      ensures ok <==> Deeper(schema, Obj(old(content))).Some?
      ensures ok ==> Deeper(schema, Obj(old(content))).value == Obj(content)
      decreases schema, 1
    {
      ok := HasRequired(schema);
      var properties := Properties(schema);
      if !ok || properties.None? {
        return;
      }
      ok := OpenFields(schema, properties.value);
      DeeperIs(schema, properties.value, old(content), content);
    }

    /** Normalises a first-level object in place. */
    method MergeNested(schema: Value) returns (ok: bool)
      requires Valid()
      modifies repr
      ensures Valid() && fresh(repr - old(repr))
      ensures ok <==> Nested(schema, Obj(old(content))).Some?
      ensures ok ==> Nested(schema, Obj(old(content))).value == Obj(content)
      decreases schema, 1
    {
      var properties := Properties(schema);
      if properties.None? {
        return true;
      }
      ok := CheckFields(Second, schema, properties.value);
      NestedIs(schema, properties.value, old(content), content);
    }
  }

  /** Builds a value in memory, as cloning a default does. */
  method Build(v: Value) returns (node: Node)
    ensures node.Leaf? ==> node.v == v && !v.Obj?
    ensures node.Nest? ==> node.o.Valid() && fresh(node.o.repr) && v == Obj(node.o.content)
    decreases v
  {
    if !v.Obj? {
      return Leaf(v);
    }
    var o := new ConfigObject();
    var todo := v.fields.Keys;
    while todo != {}
      invariant todo <= v.fields.Keys && o.Valid() && fresh(o.repr)
      invariant o.content.Keys == v.fields.Keys - todo
      invariant forall k :: k in o.content ==> o.content[k] == v.fields[k]
      decreases todo
    {
      var k :| k in todo;
      var child := Build(v.fields[k]);
      o.Add(k, child, v.fields[k]);
      todo := todo - {k};
    }
    assert o.content == v.fields;
    node := Nest(o);
  }

  /** Normalises a copy of the configuration. The given object, like everything else that existed before, stays as it
      is. */
  method NormalizeConfig(schema: Option<Value>, config: ConfigObject) returns (r: Option<ConfigObject>)
    requires config.Valid()
    ensures r.Some? <==> Normalize(schema, config.content).Some?
    ensures r.Some? ==> r.value.Valid() && fresh(r.value.repr)
    ensures r.Some? ==> r.value.content == Normalize(schema, config.content).value
  {
    var merged := config.Clone();
    if schema.None? || Properties(schema.value).None? {
      return Some(merged);
    }
    var complete := merged.HasRequired(schema.value);
    if !complete {
      return None;
    }
    ghost var given := merged.content;
    var ok := merged.CheckFields(First, schema.value, Properties(schema.value).value);
    NormalizeIs(schema.value, Properties(schema.value).value, given, merged.content);
    r := if ok then Some(merged) else None;
  }
}
