/**
 * The declarative configuration schema: a record of named top-level
 * properties, each a JSON-Schema-like property object.
 */
module Schema {
  import opened Wrappers
  import opened Json

  /** The `type` tag of a property. */
  datatype Kind = ObjectKind | ArrayKind | NumberKind | IntegerKind | StringKind | BooleanKind

  function KindName(k: Kind): string {
    match k
    case ObjectKind => "object"
    case ArrayKind => "array"
    case NumberKind => "number"
    case IntegerKind => "integer"
    case StringKind => "string"
    case BooleanKind => "boolean"
  }

  /**
   * A property object: its `type`, its `default` (None when the key is
   * `undefined`) and every other key it carries (`properties` of an object,
   * `items` of an array, `nullable`, ...) as raw JSON; `WellFormedProperty`
   * keeps `type` and `default` out of those other keys.
   */
  datatype Property = Property(kind: Kind, default: Option<Value>, attributes: map<string, Value>)

  /** The top-level properties, in the order `Object.entries` yields them. */
  type Schema = seq<(string, Property)>

  function Names(s: Schema): set<string> {
    set i | 0 <= i < |s| :: s[i].0
  }

  lemma NamesLast(s: Schema)
    requires s != []
    ensures Names(s) == Names(s[..|s| - 1]) + {s[|s| - 1].0}
  {
    var init := s[..|s| - 1];
    forall n | n in Names(s) ensures n in Names(init) + {s[|s| - 1].0} {
      var i :| 0 <= i < |s| && s[i].0 == n;
      if i < |s| - 1 { assert init[i] == s[i]; }
    }
    forall n | n in Names(init) ensures n in Names(s) {
      var i :| 0 <= i < |init| && init[i].0 == n;
      assert s[i] == init[i];
    }
  }

  /** The names of a JavaScript object's own keys are pairwise distinct. */
  ghost predicate DistinctNames(s: Schema) {
    forall i, j :: 0 <= i < j < |s| ==> s[i].0 != s[j].0
  }

  /**
   * The `type` and `default` keys live in their own fields, never among the
   * other keys: a property is one JavaScript object, so each key occurs once.
   */
  predicate WellFormedProperty(p: Property) {
    "type" !in p.attributes && "default" !in p.attributes
  }

  /** The property object as the JSON that is hashed and sent to the server. */
  function PropertyValue(p: Property): Value {
    Obj(p.attributes
        + map["type" := Str(KindName(p.kind))]
        + (if p.default.Some? then map["default" := p.default.value] else map[]))
  }

  /** The record of top-level properties as JSON (later entries win, as in an object literal). */
  function SchemaFields(s: Schema): (m: map<string, Value>)
    ensures m.Keys == Names(s)
  {
    if s == [] then map[]
    else
      NamesLast(s);
      SchemaFields(s[..|s| - 1])[s[|s| - 1].0 := PropertyValue(s[|s| - 1].1)]
  }

  function SchemaValue(s: Schema): Value {
    Obj(SchemaFields(s))
  }

  /**
   * The property object that is sent carries its `type`, and a `default`
   * exactly when generation of the defaults sees one, with the same value.
   */
  lemma PropertyValueCarriesDefault(p: Property)
    requires WellFormedProperty(p)
    ensures PropertyValue(p).fields["type"] == Str(KindName(p.kind))
    ensures "default" in PropertyValue(p).fields <==> p.default.Some?
    ensures p.default.Some? ==> PropertyValue(p).fields["default"] == p.default.value
    ensures forall k :: k in p.attributes ==> k in PropertyValue(p).fields && PropertyValue(p).fields[k] == p.attributes[k]
  {
  }
}
