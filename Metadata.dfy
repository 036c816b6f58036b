/** `Stream.load_field_metadata` (tap_bigcommerce/streams.py): the walk
    over a JSON schema that marks every field `automatic` or `available`,
    threading the metadata dict through the recursion. */
module StreamMetadata {
  import opened Common
  import opened JsonValues

  /** The `type` entry of a schema: absent, one type name, or a list. */
  datatype TypeSpec = NoType | TypeName(name: string) | TypeList(names: seq<string>)

  /** A JSON schema as the walk reads it: its type, its `properties` (in
      order) and its `items`. */
  datatype Schema = Schema(typ: TypeSpec, properties: Properties, items: Option<Schema>)

  /** The `properties` entry: absent, or the fields in order. */
  datatype Properties = Absent | Present(list: seq<Property>)

  datatype Property = Property(name: string, schema: Schema)

  /** `t in schema.get('type', [])`: list membership, or a substring test
      when the type is a single string. */
  predicate HasType(spec: TypeSpec, t: string)
  {
    match spec
    case NoType => false
    case TypeName(name) => IsSubstring(t, name)
    case TypeList(names) => t in names
  }

  /** `t in s` on strings. */
  predicate IsSubstring(t: string, s: string)
    decreases |s|
  {
    (|t| <= |s| && s[..|t|] == t) || (s != [] && IsSubstring(t, s[1..]))
  }

  /** The compiled metadata: per breadcrumb, its entries. */
  type Metadata = map<Path, map<string, string>>

  /** `metadata.write(mdata, breadcrumb, k, val)`. */
  function Write(m: Metadata, breadcrumb: Path, k: string, v: string): Metadata
  {
    m[breadcrumb := (if breadcrumb in m then m[breadcrumb] else map[])[k := v]]
  }

  /** The inclusion of field `name` under `parent`. */
  function Inclusion(name: string, parent: Path, keyProperties: seq<string>, replicationKey: Option<string>): string
  {
    if (name in keyProperties || replicationKey == Some(name)) && parent == [] then "automatic" else "available"
  }

  /** `load_field_metadata(mdata, schema, parent)`: an object's properties
      in order, each written and then descended into; an array's items
      (`{}` when absent, which writes nothing); anything else unchanged. An
      object without `properties` raises KeyError. */
  function LoadFieldMetadata(m: Metadata, schema: Schema, parent: Path,
                             keyProperties: seq<string>, replicationKey: Option<string>): Result<Metadata>
    decreases schema, 1
  {
    if HasType(schema.typ, "object") then
      match schema.properties
      case Absent => Err(KeyError("properties"))
      case Present(_) => LoadProperties(m, schema, 0, parent, keyProperties, replicationKey)
    else if HasType(schema.typ, "array") then
      match schema.items
      case None => Ok(m)
      case Some(s) => LoadFieldMetadata(m, s, parent + ["items"], keyProperties, replicationKey)
    else Ok(m)
  }

  /** The `for field_name, field_schema in ...items()` loop, from the
      `i`-th property of `owner` on. */
  function LoadProperties(m: Metadata, owner: Schema, i: nat, parent: Path,
                          keyProperties: seq<string>, replicationKey: Option<string>): Result<Metadata>
    requires owner.properties.Present? && i <= |owner.properties.list|
    decreases owner, 0, |owner.properties.list| - i
  {
    var ps := owner.properties.list;
    if i == |ps| then Ok(m)
    else
      var breadcrumb := parent + ["properties", ps[i].name];
      var m1 := Write(m, breadcrumb, "inclusion", Inclusion(ps[i].name, parent, keyProperties, replicationKey));
      match LoadFieldMetadata(m1, ps[i].schema, breadcrumb, keyProperties, replicationKey)
      case Err(e) => Err(e)
      case Ok(m2) => LoadProperties(m2, owner, i + 1, parent, keyProperties, replicationKey)
  }

  // ---------------------------------------------------------------------
  // The reference description
  // ---------------------------------------------------------------------

  /** Every object reachable through properties and items has
      `properties`. */
  predicate WellFormed(schema: Schema)
    decreases schema
  {
    if HasType(schema.typ, "object") then
      schema.properties.Present? &&
      forall j :: 0 <= j < |schema.properties.list| ==> WellFormed(schema.properties.list[j].schema)
    else if HasType(schema.typ, "array") then
      schema.items.None? || WellFormed(schema.items.value)
    else true
  }

  /** `path` leads from `schema` to one of its fields: `properties` and a
      field name, possibly continued into that field, or `items` and a path
      into the items. */
  predicate IsFieldPath(schema: Schema, path: Path)
    decreases schema
  {
    if HasType(schema.typ, "object") then
      schema.properties.Present? && |path| >= 2 && path[0] == "properties" &&
      exists j :: 0 <= j < |schema.properties.list| && schema.properties.list[j].name == path[1] &&
        (|path| == 2 || IsFieldPath(schema.properties.list[j].schema, path[2..]))
    else if HasType(schema.typ, "array") then
      schema.items.Some? && |path| >= 1 && path[0] == "items" && IsFieldPath(schema.items.value, path[1..])
    else false
  }

  /** `path` leads to property `p` or into it. */
  predicate InProperty(p: Property, path: Path)
  {
    |path| >= 2 && path[0] == "properties" && path[1] == p.name &&
    (|path| == 2 || IsFieldPath(p.schema, path[2..]))
  }

  /** `b` is `parent` followed by a path that `describes` accepts. */
  predicate Extends(parent: Path, b: Path)
  {
    |parent| <= |b| && b[..|parent|] == parent
  }

  predicate Below(parent: Path, b: Path, schema: Schema)
  {
    Extends(parent, b) && IsFieldPath(schema, b[|parent|..])
  }

  /** `b` is below one of the properties from the `i`-th on. */
  predicate BelowProps(parent: Path, b: Path, ps: seq<Property>, i: nat)
  {
    Extends(parent, b) && exists j :: i <= j < |ps| && InProperty(ps[j], b[|parent|..])
  }

  /** The inclusion a written breadcrumb gets: automatic only for a
      top-level key property or replication key. */
  function Expected(b: Path, parent: Path, keyProperties: seq<string>, replicationKey: Option<string>): string
  {
    if parent == [] && |b| == 2 && (b[1] in keyProperties || replicationKey == Some(b[1])) then "automatic"
    else "available"
  }

  /** `out` holds `m`'s entry for `b` with the inclusion set. */
  predicate WrittenAs(m: Metadata, out: Metadata, b: Path, inclusion: string)
  {
    b in out && out[b] == (if b in m then m[b] else map[])["inclusion" := inclusion]
  }

  /** `out` holds exactly what `m` held for `b`. */
  predicate Untouched(m: Metadata, out: Metadata, b: Path)
  {
    (b in out <==> b in m) && (b in m ==> out[b] == m[b])
  }

  /** The walk's result, entry by entry. */
  ghost predicate Describes(m: Metadata, out: Metadata, parent: Path, schema: Schema,
                      keyProperties: seq<string>, replicationKey: Option<string>)
  {
    (forall b :: Below(parent, b, schema) ==> WrittenAs(m, out, b, Expected(b, parent, keyProperties, replicationKey))) &&
    (forall b :: !Below(parent, b, schema) ==> Untouched(m, out, b))
  }

  ghost predicate DescribesProps(m: Metadata, out: Metadata, parent: Path, ps: seq<Property>, i: nat,
                                 keyProperties: seq<string>, replicationKey: Option<string>)
  {
    (forall b :: BelowProps(parent, b, ps, i) ==> WrittenAs(m, out, b, Expected(b, parent, keyProperties, replicationKey))) &&
    (forall b :: !BelowProps(parent, b, ps, i) ==> Untouched(m, out, b))
  }

  // ---------------------------------------------------------------------
  // The walk meets its description
  // ---------------------------------------------------------------------

  lemma {:induction false} FieldPathLength(schema: Schema, path: Path)
    requires IsFieldPath(schema, path)
    ensures |path| >= 2
    decreases schema
  {
    if !HasType(schema.typ, "object") {
      FieldPathLength(schema.items.value, path[1..]);
    }
  }

  lemma BelowNonEmpty(parent: Path, b: Path, schema: Schema)
    requires Below(parent, b, schema)
    ensures |b| >= |parent| + 2
  {
    FieldPathLength(schema, b[|parent|..]);
  }

  /** A path extending `parent + x` extends `parent`. */
  lemma PrefixOfLonger(parent: Path, x: Path, b: Path)
    ensures Extends(parent + x, b) || b == parent + x ==> Extends(parent, b)
  {
    if Extends(parent + x, b) || b == parent + x {
      assert b[..|parent|] == (parent + x)[..|parent|];
    }
  }

  /** Below an object are exactly the paths below its properties. */
  lemma BelowObject(parent: Path, b: Path, schema: Schema)
    requires HasType(schema.typ, "object") && schema.properties.Present?
    ensures Below(parent, b, schema) <==> BelowProps(parent, b, schema.properties.list, 0)
  {
  }

  /** The paths below the properties from the `i`-th on: that property's
      breadcrumb, the paths below it, and the paths below the later ones. */
  lemma BelowPropsStep(parent: Path, b: Path, ps: seq<Property>, i: nat)
    requires i < |ps|
    ensures BelowProps(parent, b, ps, i) <==>
      b == parent + ["properties", ps[i].name] ||
      Below(parent + ["properties", ps[i].name], b, ps[i].schema) ||
      BelowProps(parent, b, ps, i + 1)
  {
    var bc := parent + ["properties", ps[i].name];
    if Extends(parent, b) {
      var q := b[|parent|..];
      assert b == parent + q;
      assert InProperty(ps[i], q) <==> b == bc || Below(bc, b, ps[i].schema) by {
        if |q| >= 2 {
          assert b[..|bc|] == parent + q[..2];
          assert b[|bc|..] == q[2..];
        } else {
          assert |b| < |bc|;
        }
      }
    } else {
      PrefixOfLonger(parent, ["properties", ps[i].name], b);
    }
  }

  /** The paths below an array are those below its items, after `items`. */
  lemma BelowItems(parent: Path, b: Path, schema: Schema)
    requires !HasType(schema.typ, "object") && HasType(schema.typ, "array") && schema.items.Some?
    ensures Below(parent, b, schema) <==> Below(parent + ["items"], b, schema.items.value)
  {
    var bi := parent + ["items"];
    if Extends(parent, b) {
      var q := b[|parent|..];
      assert b == parent + q;
      if |q| >= 1 {
        assert b[..|bi|] == parent + q[..1];
        assert b[|bi|..] == q[1..];
      } else {
        assert |b| < |bi|;
      }
    } else {
      PrefixOfLonger(parent, ["items"], b);
    }
  }

  /** Two stages of writes compose: the same inclusion written once or
      twice reads the same. */
  lemma Compose(m: Metadata, m1: Metadata, m2: Metadata, b: Path, v: string)
    ensures WrittenAs(m, m1, b, v) && WrittenAs(m1, m2, b, v) ==> WrittenAs(m, m2, b, v)
    ensures WrittenAs(m, m1, b, v) && Untouched(m1, m2, b) ==> WrittenAs(m, m2, b, v)
    ensures Untouched(m, m1, b) && WrittenAs(m1, m2, b, v) ==> WrittenAs(m, m2, b, v)
    ensures Untouched(m, m1, b) && Untouched(m1, m2, b) ==> Untouched(m, m2, b)
  {
    if WrittenAs(m, m1, b, v) && WrittenAs(m1, m2, b, v) {
      var e := if b in m then m[b] else map[];
      assert e["inclusion" := v]["inclusion" := v] == e["inclusion" := v];
    }
  }

  /** The properties from the `i`-th on are well formed iff the `i`-th is
      and those after it are. */
  lemma WellFormedFrom(ps: seq<Property>, i: nat)
    requires i < |ps|
    ensures (forall j :: i <= j < |ps| ==> WellFormed(ps[j].schema)) <==>
      WellFormed(ps[i].schema) && (forall j :: i + 1 <= j < |ps| ==> WellFormed(ps[j].schema))
  {
  }

  /** The walk succeeds iff every reachable object has `properties`, and
      then it writes exactly the breadcrumbs of the schema's fields below
      `parent`, each with its inclusion, and leaves every other entry as it
      was. */
  lemma {:induction false} LoadFieldMetadataDescribed(m: Metadata, schema: Schema, parent: Path,
                                                      keyProperties: seq<string>, replicationKey: Option<string>)
    ensures LoadFieldMetadata(m, schema, parent, keyProperties, replicationKey).Ok? <==> WellFormed(schema)
    ensures LoadFieldMetadata(m, schema, parent, keyProperties, replicationKey).Ok? ==>
      Describes(m, LoadFieldMetadata(m, schema, parent, keyProperties, replicationKey).value, parent, schema,
                keyProperties, replicationKey)
    decreases schema, 1
  {
    if HasType(schema.typ, "object") {
      if schema.properties.Present? {
        LoadPropertiesDescribed(m, schema, 0, parent, keyProperties, replicationKey);
        forall b ensures Below(parent, b, schema) <==> BelowProps(parent, b, schema.properties.list, 0) {
          BelowObject(parent, b, schema);
        }
      }
    } else if HasType(schema.typ, "array") {
      if schema.items.Some? {
        var t := schema.items.value;
        var pi := parent + ["items"];
        LoadFieldMetadataDescribed(m, t, pi, keyProperties, replicationKey);
        var r := LoadFieldMetadata(m, t, pi, keyProperties, replicationKey);
        if r.Ok? {
          forall b ensures Below(parent, b, schema) <==> Below(pi, b, t) {
            BelowItems(parent, b, schema);
          }
          forall b | Below(pi, b, t)
            ensures Expected(b, pi, keyProperties, replicationKey) == Expected(b, parent, keyProperties, replicationKey)
          {
            BelowNonEmpty(pi, b, t);
          }
        }
      } else {
        assert forall b :: !Below(parent, b, schema);
      }
    } else {
      assert forall b :: !Below(parent, b, schema);
    }
  }

  lemma {:induction false} LoadPropertiesDescribed(m: Metadata, owner: Schema, i: nat, parent: Path,
                                                   keyProperties: seq<string>, replicationKey: Option<string>)
    requires owner.properties.Present? && i <= |owner.properties.list|
    ensures LoadProperties(m, owner, i, parent, keyProperties, replicationKey).Ok? <==>
      forall j :: i <= j < |owner.properties.list| ==> WellFormed(owner.properties.list[j].schema)
    ensures LoadProperties(m, owner, i, parent, keyProperties, replicationKey).Ok? ==>
      DescribesProps(m, LoadProperties(m, owner, i, parent, keyProperties, replicationKey).value, parent,
                     owner.properties.list, i, keyProperties, replicationKey)
    decreases owner, 0, |owner.properties.list| - i
  {
    var ps := owner.properties.list;
    if i == |ps| {
      assert forall b :: !BelowProps(parent, b, ps, i);
    } else {
      var bc := parent + ["properties", ps[i].name];
      var m1 := Write(m, bc, "inclusion", Inclusion(ps[i].name, parent, keyProperties, replicationKey));
      LoadFieldMetadataDescribed(m1, ps[i].schema, bc, keyProperties, replicationKey);
      var r1 := LoadFieldMetadata(m1, ps[i].schema, bc, keyProperties, replicationKey);
      WellFormedFrom(ps, i);
      if r1.Ok? {
        var m2 := r1.value;
        LoadPropertiesDescribed(m2, owner, i + 1, parent, keyProperties, replicationKey);
        var r := LoadProperties(m2, owner, i + 1, parent, keyProperties, replicationKey);
        if r.Ok? {
          PropertyDescribed(m, m1, m2, r.value, parent, ps, i, keyProperties, replicationKey);
        }
      }
    }
  }

  /** One property's share of the walk: the breadcrumb write, then the
      walk below it, then the later properties, describe the walk from
      this property on. */
  lemma PropertyDescribed(m: Metadata, m1: Metadata, m2: Metadata, out: Metadata, parent: Path,
                          ps: seq<Property>, i: nat, keyProperties: seq<string>, replicationKey: Option<string>)
    requires i < |ps|
    requires m1 == Write(m, parent + ["properties", ps[i].name], "inclusion",
                         Inclusion(ps[i].name, parent, keyProperties, replicationKey))
    requires Describes(m1, m2, parent + ["properties", ps[i].name], ps[i].schema, keyProperties, replicationKey)
    requires DescribesProps(m2, out, parent, ps, i + 1, keyProperties, replicationKey)
    ensures DescribesProps(m, out, parent, ps, i, keyProperties, replicationKey)
  {
    forall b
      ensures BelowProps(parent, b, ps, i) ==> WrittenAs(m, out, b, Expected(b, parent, keyProperties, replicationKey))
      ensures !BelowProps(parent, b, ps, i) ==> Untouched(m, out, b)
    {
      PropertyEntry(m, m1, m2, out, parent, ps, i, b, keyProperties, replicationKey);
    }
  }

  /** One property's share of the walk, for one path `b`: the breadcrumb
      write, then the walk below it, then the later properties. */
  lemma PropertyEntry(m: Metadata, m1: Metadata, m2: Metadata, out: Metadata, parent: Path,
                      ps: seq<Property>, i: nat, b: Path,
                      keyProperties: seq<string>, replicationKey: Option<string>)
    requires i < |ps|
    requires m1 == Write(m, parent + ["properties", ps[i].name], "inclusion",
                         Inclusion(ps[i].name, parent, keyProperties, replicationKey))
    requires Describes(m1, m2, parent + ["properties", ps[i].name], ps[i].schema, keyProperties, replicationKey)
    requires DescribesProps(m2, out, parent, ps, i + 1, keyProperties, replicationKey)
    ensures BelowProps(parent, b, ps, i) ==> WrittenAs(m, out, b, Expected(b, parent, keyProperties, replicationKey))
    ensures !BelowProps(parent, b, ps, i) ==> Untouched(m, out, b)
  {
    var bc := parent + ["properties", ps[i].name];
    var v := Expected(b, parent, keyProperties, replicationKey);
    BelowPropsStep(parent, b, ps, i);
    if b == bc {
      assert WrittenAs(m, m1, b, v);
    } else {
      assert Untouched(m, m1, b);
    }
    if Below(bc, b, ps[i].schema) {
      BelowNonEmpty(bc, b, ps[i].schema);
      assert Expected(b, bc, keyProperties, replicationKey) == v;
    }
    Compose(m, m1, m2, b, v);
    Compose(m, m2, out, b, v);
  }

  /** At the top level a field is automatic iff it is a key property or
      the replication key, and every nested field is available. */
  lemma TopLevelInclusion(m: Metadata, schema: Schema, keyProperties: seq<string>, replicationKey: Option<string>,
                          b: Path)
    requires LoadFieldMetadata(m, schema, [], keyProperties, replicationKey).Ok?
    requires IsFieldPath(schema, b)
    ensures b in LoadFieldMetadata(m, schema, [], keyProperties, replicationKey).value
    ensures "inclusion" in LoadFieldMetadata(m, schema, [], keyProperties, replicationKey).value[b]
    ensures LoadFieldMetadata(m, schema, [], keyProperties, replicationKey).value[b]["inclusion"] ==
      if |b| == 2 && (b[1] in keyProperties || replicationKey == Some(b[1])) then "automatic" else "available"
  {
    LoadFieldMetadataDescribed(m, schema, [], keyProperties, replicationKey);
    assert Below([], b, schema) by {
      assert b[0..] == b;
    }
  }
}
