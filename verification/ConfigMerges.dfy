/** Normalising an object key by key: what holds once some of the keys are done, in any order. */
module ConfigMerges {
  import opened Base
  import opened ConfigSpec

  /** The part of a fill that one key contributes. */
  function FilledAt(properties: map<string, Value>, given: map<string, Value>, k: string): map<string, Value> {
    if Fillable(properties, given, k) then given[k := LeafDefault(TypeOf(properties[k]), properties[k]).value]
    else given
  }

  predicate LacksAt(properties: map<string, Value>, required: set<string>, given: map<string, Value>, k: string) {
    k in properties && k in required && k !in given && IsLeaf(properties[k])
      && LeafDefault(TypeOf(properties[k]), properties[k]).None?
  }

  function FilledUpTo(properties: map<string, Value>, given: map<string, Value>, done: set<string>)
    : map<string, Value> {
    map k | k in done + given.Keys && (k in given || Fillable(properties, given, k)) ::
      if k in given then given[k] else LeafDefault(TypeOf(properties[k]), properties[k]).value
  }

  predicate NoneLacks(properties: map<string, Value>, required: set<string>, given: map<string, Value>,
                      done: set<string>) {
    forall k :: k in done ==> !LacksAt(properties, required, given, k)
  }

  lemma FilledMore(properties: map<string, Value>, required: set<string>, given: map<string, Value>, done: set<string>,
                   k: string)
    requires k in properties && k !in done
    ensures FilledUpTo(properties, given, done + {k}) == FilledAt(properties, FilledUpTo(properties, given, done), k)
    ensures LacksAt(properties, required, FilledUpTo(properties, given, done), k) == LacksAt(properties, required,
            given, k)
    ensures LacksAt(properties, required, given, k) ==> Lacks(properties, required, given)
    ensures NoneLacks(properties, required, given, done) && !LacksAt(properties, required, given, k) ==>
              NoneLacks(properties, required, given, done + {k})
  {
    var filled := FilledUpTo(properties, given, done);
    assert k in filled <==> k in given;
  }

  lemma NothingFilled(properties: map<string, Value>, given: map<string, Value>)
    ensures FilledUpTo(properties, given, {}) == given
  {
  }

  lemma AllFilled(properties: map<string, Value>, required: set<string>, given: map<string, Value>, done: set<string>)
    requires done == properties.Keys && NoneLacks(properties, required, given, done)
    ensures FilledUpTo(properties, given, done) == Filled(properties, given) && !Lacks(properties, required, given)
  {
  }

  /** How a value is treated at the first level, the second, and from the third down. */
  datatype Level = First | Second | Deep

  function AtLevel(level: Level, schema: Value, v: Value): Option<Value> {
    match level
    case First => TopLevel(schema, v)
    case Second => Grown(schema, v)
    case Deep => Child(schema, v)
  }

  /** How an object under an object property is treated. */
  function ObjectAt(level: Level, schema: Value, given: map<string, Value>): Option<Value> {
    match level
    case First => Nested(schema, Obj(given))
    case Second => Deeper(schema, Obj(given))
    case Deep => Branch(schema, Obj(given))
  }

  lemma AtLevelIs(level: Level, schema: Value, v: Value)
    ensures IsBranch(schema) && v.Obj? ==> AtLevel(level, schema, v) == ObjectAt(level, schema, v.fields)
    ensures IsBranch(schema) && !v.Obj? ==> AtLevel(level, schema, v) == if level.Deep? then None else Some(v)
    ensures IsLeaf(schema) ==>
              var fits := MatchesType(TypeOf(schema), v) && (level.Deep? ==> InEnum(TypeOf(schema), schema, v));
              AtLevel(level, schema, v) == if fits then Some(v) else None
    ensures !IsLeaf(schema) && !IsBranch(schema) ==> AtLevel(level, schema, v) == Some(v)
  {
  }

  predicate NoneFails(level: Level, properties: map<string, Value>, given: map<string, Value>, done: set<string>) {
    forall k :: k in done && k in properties && k in given ==> AtLevel(level, properties[k], given[k]).Some?
  }

  /** The keys in `done` have been normalised and the others not yet. */
  predicate Merges(level: Level, properties: map<string, Value>, given: map<string, Value>, done: set<string>,
                   content: map<string, Value>)
    requires NoneFails(level, properties, given, done) && content.Keys == given.Keys
  {
    forall k :: k in given ==>
      content[k] == if k in done && k in properties then AtLevel(level, properties[k], given[k]).value else given[k]
  }

  /** One more key. */
  lemma MergesMore(level: Level, properties: map<string, Value>, given: map<string, Value>, done: set<string>,
                   before: map<string, Value>, k: string)
    requires NoneFails(level, properties, given, done) && before.Keys == given.Keys
    requires Merges(level, properties, given, done, before)
    requires k in properties && k !in done
    ensures k !in given ==>
              NoneFails(level, properties, given, done + {k}) && Merges(level, properties, given, done + {k}, before)
    ensures k in given ==> before[k] == given[k]
    ensures k in given && AtLevel(level, properties[k], given[k]).Some? ==>
              && NoneFails(level, properties, given, done + {k})
              && Merges(level, properties, given, done + {k},
                        before[k := AtLevel(level, properties[k], given[k]).value])
  {
  }

  lemma BranchAccepts(schema: Value, properties: map<string, Value>, given: map<string, Value>)
    requires Properties(schema) == Some(properties)
    ensures Branch(schema, Obj(given)).Some? <==>
              && !Lacks(properties, RequiredNames(schema), given)
              && NoneFails(Deep, properties, Filled(properties, given), properties.Keys)
  {
    var filled := Filled(properties, given);
    assert (exists k :: k in properties && k in filled && Child(properties[k], filled[k]).None?) <==>
           !NoneFails(Deep, properties, filled, properties.Keys);
  }

  lemma BranchGives(schema: Value, properties: map<string, Value>, given: map<string, Value>,
                    content: map<string, Value>)
    requires Properties(schema) == Some(properties) && Branch(schema, Obj(given)).Some?
    requires content.Keys == Filled(properties, given).Keys
    requires Merges(Deep, properties, Filled(properties, given), properties.Keys, content)
    ensures Branch(schema, Obj(given)) == Some(Obj(content))
  {
    var filled := Filled(properties, given);
    var merged := map k | k in filled :: if k in properties then Child(properties[k], filled[k]).value else filled[k];
    assert Branch(schema, Obj(given)) == Some(Obj(merged));
    assert merged == content;
  }

  /** A branch is its defaults filled in and its children checked. */
  lemma BranchIs(schema: Value, properties: map<string, Value>, given: map<string, Value>, content: map<string, Value>)
    requires Properties(schema) == Some(properties)
    ensures Lacks(properties, RequiredNames(schema), given) ==> Branch(schema, Obj(given)).None?
    ensures !Lacks(properties, RequiredNames(schema), given) ==>
              var filled := Filled(properties, given);
              && (Branch(schema, Obj(given)).Some? <==> NoneFails(Deep, properties, filled, properties.Keys))
              && (NoneFails(Deep, properties, filled, properties.Keys) && content.Keys == filled.Keys
                  && Merges(Deep, properties, filled, properties.Keys, content) ==>
                    Branch(schema, Obj(given)) == Some(Obj(content)))
  {
    BranchAccepts(schema, properties, given);
    var filled := Filled(properties, given);
    if Branch(schema, Obj(given)).Some? && content.Keys == filled.Keys
        && Merges(Deep, properties, filled, properties.Keys, content) {
      BranchGives(schema, properties, given, content);
    }
  }

  lemma NestedIs(schema: Value, properties: map<string, Value>, given: map<string, Value>, content: map<string, Value>)
    requires Properties(schema) == Some(properties)
    ensures Nested(schema, Obj(given)).Some? <==> NoneFails(Second, properties, given, properties.Keys)
    ensures NoneFails(Second, properties, given, properties.Keys) && content.Keys == given.Keys
            && Merges(Second, properties, given, properties.Keys, content) ==>
              Nested(schema, Obj(given)) == Some(Obj(content))
  {
    if NoneFails(Second, properties, given, properties.Keys) && content.Keys == given.Keys
        && Merges(Second, properties, given, properties.Keys, content) {
      assert (map k | k in given ::
              if k in properties then Grown(properties[k], given[k]).value else given[k]) == content;
    }
  }

  lemma NormalizeIs(schema: Value, properties: map<string, Value>, given: map<string, Value>,
                    content: map<string, Value>)
    requires Properties(schema) == Some(properties) && forall name :: name in RequiredNames(schema) ==> name in given
    ensures Normalize(Some(schema), given).Some? <==> NoneFails(First, properties, given, properties.Keys)
    ensures NoneFails(First, properties, given, properties.Keys) && content.Keys == given.Keys
            && Merges(First, properties, given, properties.Keys, content) ==>
              Normalize(Some(schema), given) == Some(content)
  {
    if NoneFails(First, properties, given, properties.Keys) && content.Keys == given.Keys
        && Merges(First, properties, given, properties.Keys, content) {
      assert (map k | k in given ::
              if k in properties then TopLevel(properties[k], given[k]).value else given[k]) == content;
    }
  }

  // ---- A second-level object, whose missing third-level objects are created on the way ----

  /** The keys in `done` have been opened and normalised, the others are as they were given; `prepared` is the
      given object with every missing object opened. */
  ghost predicate DeepMerges(properties: map<string, Value>, given: map<string, Value>, prepared: map<string, Value>,
                             done: set<string>, content: map<string, Value>)
    requires NoneFails(Deep, properties, prepared, done)
  {
    && (forall k :: k in content <==> k in given || (k in done && k in prepared))
    && (forall k :: k in content ==>
          if k in done && k in properties && k in prepared then content[k] == Child(properties[k], prepared[k]).value
          else k in given && content[k] == given[k])
  }

  function Seed(before: map<string, Value>, k: string): Value {
    if k in before then before[k] else Obj(map[])
  }

  lemma OpenedAt(properties: map<string, Value>, given: map<string, Value>, k: string)
    requires k in properties
    ensures k in Opened(properties, given) <==> k in given || IsBranch(properties[k])
    ensures k in Opened(properties, given) ==> Opened(properties, given)[k] == Seed(given, k)
  {
  }

  /** One more key, opened if need be and checked. */
  lemma DeepMergesMore(properties: map<string, Value>, given: map<string, Value>, prepared: map<string, Value>,
                       done: set<string>, before: map<string, Value>, k: string)
    requires NoneFails(Deep, properties, prepared, done) && DeepMerges(properties, given, prepared, done, before)
    requires k in properties && k !in done && k in prepared && Child(properties[k], prepared[k]).Some?
    ensures NoneFails(Deep, properties, prepared, done + {k})
    ensures DeepMerges(properties, given, prepared, done + {k}, before[k := Child(properties[k], prepared[k]).value])
  {
    assert AtLevel(Deep, properties[k], prepared[k]) == Child(properties[k], prepared[k]);
  }

  /** One more key, missing and no object: left alone. */
  lemma DeepMergesSame(properties: map<string, Value>, given: map<string, Value>, prepared: map<string, Value>,
                       done: set<string>, before: map<string, Value>, k: string)
    requires NoneFails(Deep, properties, prepared, done) && DeepMerges(properties, given, prepared, done, before)
    requires k !in done && k !in prepared
    ensures NoneFails(Deep, properties, prepared, done + {k})
    ensures DeepMerges(properties, given, prepared, done + {k}, before)
  {
  }

  /** Opening one third-level field: a missing object is created before it is normalised. */
  function OpenOne(schema: Value, before: map<string, Value>, k: string): Option<map<string, Value>> {
    if k !in before && !IsBranch(schema) then Some(before) else
    match Child(schema, Seed(before, k))
    case None => None
    case Some(v) => Some(before[k := v])
  }

  /** One more key, whatever it takes. */
  lemma DeepMergesOn(properties: map<string, Value>, given: map<string, Value>, done: set<string>,
                     before: map<string, Value>, k: string)
    requires var prepared := Opened(properties, given);
             NoneFails(Deep, properties, prepared, done) && DeepMerges(properties, given, prepared, done, before)
    requires k in properties && k !in done
    ensures var prepared := Opened(properties, given);
            match OpenOne(properties[k], before, k)
            case None => !NoneFails(Deep, properties, prepared, properties.Keys)
            case Some(after) =>
              NoneFails(Deep, properties, prepared, done + {k})
                && DeepMerges(properties, given, prepared, done + {k}, after)
  {
    var prepared := Opened(properties, given);
    OpenedAt(properties, given, k);
    assert Seed(before, k) == Seed(given, k) && (k in before <==> k in given);
    if k !in prepared {
      DeepMergesSame(properties, given, prepared, done, before, k);
    } else if Child(properties[k], prepared[k]).Some? {
      DeepMergesMore(properties, given, prepared, done, before, k);
    } else {
      assert AtLevel(Deep, properties[k], prepared[k]).None?;
    }
  }

  lemma DeeperIs(schema: Value, properties: map<string, Value>, given: map<string, Value>, content: map<string, Value>)
    requires Properties(schema) == Some(properties) && forall name :: name in RequiredNames(schema) ==> name in given
    ensures Deeper(schema, Obj(given)).Some? <==>
            NoneFails(Deep, properties, Opened(properties, given), properties.Keys)
    ensures NoneFails(Deep, properties, Opened(properties, given), properties.Keys) ==>
              DeepMerges(properties, given, Opened(properties, given), properties.Keys, content) ==>
                Deeper(schema, Obj(given)) == Some(Obj(content))
  {
    var prepared := Opened(properties, given);
    if NoneFails(Deep, properties, prepared, properties.Keys)
        && DeepMerges(properties, given, prepared, properties.Keys, content) {
      forall k ensures k in content <==> k in prepared {
        assert k in prepared <==> k in given || (k in properties && IsBranch(properties[k]));
      }
      assert (map k | k in prepared ::
              if k in properties then Child(properties[k], prepared[k]).value else prepared[k]) == content;
    }
  }
}
