/**
 * The initial configuration snapshot: every top-level property's `default`,
 * collected into one record.
 */
module SchemaDefaults {
  import opened Wrappers
  import opened Json
  import opened Schema

  /** The error thrown for a top-level property whose `default` is `undefined`. */
  datatype MissingDefault = MissingDefault(property: string) {
    function Message(): (msg: string)
      ensures |msg| > 10 + |property| && msg[10..10 + |property|] == property
    {
      "Property \"" + property + "\" is missing a default value"
    }
  }

  /** Every top-level property declares a default (`null`, `false`, `0` and `""` included). */
  predicate AllDefined(s: Schema) {
    forall i :: 0 <= i < |s| ==> s[i].1.default.Some?
  }

  /**
   * Reference definition: the record built one entry at a time, in entry
   * order, failing at the first property whose default is undefined.
   */
  function Defaults(s: Schema): Result<map<string, Value>, MissingDefault> {
    if s == [] then Ok(map[])
    else
      match Defaults(s[..|s| - 1])
      case Err(e) => Err(e)
      case Ok(m) =>
        var (name, p) := s[|s| - 1];
        if p.default.None? then Err(MissingDefault(name)) else Ok(m[name := p.default.value])
  }

  /** The loop over `Object.entries(schema)` that fills `defaults` and throws at the first missing default. */
  method GenerateDefaults(schema: Schema) returns (r: Result<map<string, Value>, MissingDefault>)
    ensures r == Defaults(schema)
  {
    var defaults: map<string, Value> := map[];
    for i := 0 to |schema|
      invariant Defaults(schema[..i]) == Ok(defaults)
    {
      var (propertyName, property) := schema[i];
      assert schema[..i + 1][..i] == schema[..i];
      if property.default.None? {
        DefaultsErrPersists(schema, i + 1);
        return Err(MissingDefault(propertyName));
      }
      defaults := defaults[propertyName := property.default.value];
    }
    assert schema[..|schema|] == schema;
    return Ok(defaults);
  }

  /** Once a prefix fails, every longer schema fails with the same error. */
  lemma {:induction false} DefaultsErrPersists(s: Schema, k: nat)
    requires k <= |s| && Defaults(s[..k]).Err?
    ensures Defaults(s) == Defaults(s[..k])
    decreases |s| - k
  {
    if k < |s| {
      assert s[..k + 1][..k] == s[..k];
      DefaultsErrPersists(s, k + 1);
    } else {
      assert s[..k] == s;
    }
  }

  /** Generation succeeds exactly when every property has a default, and then the keys are the property names. */
  lemma {:induction false} DefaultsSucceedIff(s: Schema)
    ensures Defaults(s).Ok? <==> AllDefined(s)
    ensures Defaults(s).Ok? ==> Defaults(s).value.Keys == Names(s)
  {
    if s != [] {
      var init := s[..|s| - 1];
      DefaultsSucceedIff(init);
      NamesLast(s);
      assert AllDefined(s) <==> AllDefined(init) && s[|s| - 1].1.default.Some? by {
        if AllDefined(init) && s[|s| - 1].1.default.Some? {
          forall i | 0 <= i < |s| ensures s[i].1.default.Some? {
            if i < |s| - 1 { assert s[i] == init[i]; }
          }
        }
        if AllDefined(s) {
          forall i | 0 <= i < |init| ensures init[i].1.default.Some? {
            assert init[i] == s[i];
          }
        }
      }
    }
  }

  /** Each property name maps to exactly its declared default, copied verbatim. */
  lemma {:induction false} DefaultsCopyValues(s: Schema)
    requires DistinctNames(s) && AllDefined(s)
    ensures Defaults(s).Ok?
    ensures forall i :: 0 <= i < |s| ==> s[i].0 in Defaults(s).value && Defaults(s).value[s[i].0] == s[i].1.default.value
  {
    DefaultsSucceedIff(s);
    if s != [] {
      var init := s[..|s| - 1];
      assert DistinctNames(init) && AllDefined(init) by {
        forall i | 0 <= i < |init| ensures init[i] == s[i] { }
      }
      DefaultsCopyValues(init);
      forall i | 0 <= i < |s| - 1
        ensures s[i].0 in Defaults(s).value && Defaults(s).value[s[i].0] == s[i].1.default.value
      {
        assert init[i] == s[i];
      }
    }
  }

  /** A failure names the first property, in entry order, whose default is undefined. */
  lemma {:induction false} DefaultsNameFirstMissing(s: Schema)
    requires !AllDefined(s)
    ensures exists i :: 0 <= i < |s| && s[i].1.default.None? && AllDefined(s[..i])
                        && Defaults(s) == Err(MissingDefault(s[i].0))
  {
    var init := s[..|s| - 1];
    if AllDefined(init) {
      DefaultsSucceedIff(init);
      var i := |s| - 1;
      if s[i].1.default.Some? {
        forall j | 0 <= j < |s| ensures s[j].1.default.Some? {
          if j < i { assert init[j] == s[j]; }
        }
        assert false;
      }
      assert s[..i] == init;
    } else {
      DefaultsNameFirstMissing(init);
      var i :| 0 <= i < |init| && init[i].1.default.None? && AllDefined(init[..i])
               && Defaults(init) == Err(MissingDefault(init[i].0));
      assert init[i] == s[i] && init[..i] == s[..i];
    }
  }

  /** Only the names and defaults matter: nested `properties`, `type` and other keys are never read. */
  lemma {:induction false} DefaultsIgnoreNestedProperties(s: Schema, t: Schema)
    requires |s| == |t|
    requires forall i :: 0 <= i < |s| ==> s[i].0 == t[i].0 && s[i].1.default == t[i].1.default
    ensures Defaults(s) == Defaults(t)
  {
    if s != [] {
      DefaultsIgnoreNestedProperties(s[..|s| - 1], t[..|t| - 1]);
    }
  }

  /** An empty schema yields an empty record. */
  lemma EmptySchemaEmptyDefaults()
    ensures Defaults([]) == Ok(map[])
  {
  }

  /** The cases the repository's own test pins down, and defaults that are falsy but defined. */
  lemma DefaultsExamples()
    ensures Defaults([("foo", Property(StringKind, Some(Str("bar")), map[]))])
            == Ok(map["foo" := Str("bar")])
    ensures Defaults([("foo", Property(StringKind, Some(Str("bar")), map[])),
                      ("bar", Property(NumberKind, Some(Num(42.0)), map[]))])
            == Ok(map["foo" := Str("bar"), "bar" := Num(42.0)])
    ensures Defaults([("foo", Property(StringKind, None, map[]))])
            == Err(MissingDefault("foo"))
    ensures Defaults([("a", Property(StringKind, Some(Null), map["nullable" := Bool(true)])),
                      ("b", Property(BooleanKind, Some(Bool(false)), map[])),
                      ("c", Property(NumberKind, Some(Num(0.0)), map[])),
                      ("d", Property(StringKind, Some(Str("")), map[]))])
            == Ok(map["a" := Null, "b" := Bool(false), "c" := Num(0.0), "d" := Str("")])
  {
    var s1 := [("foo", Property(StringKind, Some(Str("bar")), map[]))];
    assert s1[..0] == [];
    var s2 := s1 + [("bar", Property(NumberKind, Some(Num(42.0)), map[]))];
    assert s2[..1] == s1;
    var s3 := [("foo", Property(StringKind, None, map[]))];
    assert s3[..0] == [];
    var t1 := [("a", Property(StringKind, Some(Null), map["nullable" := Bool(true)]))];
    var t2 := t1 + [("b", Property(BooleanKind, Some(Bool(false)), map[]))];
    var t3 := t2 + [("c", Property(NumberKind, Some(Num(0.0)), map[]))];
    var t4 := t3 + [("d", Property(StringKind, Some(Str("")), map[]))];
    assert t1[..0] == [] && t2[..1] == t1 && t3[..2] == t2 && t4[..3] == t3;
    assert Defaults(t1) == Ok(map["a" := Null]);
    assert Defaults(t2) == Ok(map["a" := Null, "b" := Bool(false)]);
    assert Defaults(t3) == Ok(map["a" := Null, "b" := Bool(false), "c" := Num(0.0)]);
    assert t4 == [("a", Property(StringKind, Some(Null), map["nullable" := Bool(true)])),
                  ("b", Property(BooleanKind, Some(Bool(false)), map[])),
                  ("c", Property(NumberKind, Some(Num(0.0)), map[])),
                  ("d", Property(StringKind, Some(Str("")), map[]))];
  }
}
