/** The recursive walks over decoded rows in tap_bigcommerce/bigcommerce.py:
    path-based field exclusion, date normalisation, and the two-phase
    nested-resource protocol (dispatch every link as a pending handle, then
    resolve every handle). Each walk builds a fresh value; Dafny values are
    immutable, so "does not mutate its input" holds by construction. */
module Transforms {
  import opened Common
  import opened JsonValues

  // ---------------------------------------------------------------------
  // filter_excluded_paths
  // ---------------------------------------------------------------------

  /** `_filter(o, parent_key)`: drop every dict entry whose full key path is
      in `exclude`; a list element keeps its parent's path. */
  function Filter(j: Json, exclude: set<Path>, parent: Path): Json
  {
    match j
    case Obj(fs) => Obj(FilterFields(fs, exclude, parent))
    case Arr(items) => Arr(FilterItems(items, exclude, parent))
    case _ => j
  }

  function FilterFields(fs: seq<Field>, exclude: set<Path>, parent: Path): seq<Field>
  {
    if fs == [] then []
    else
      var path := parent + [fs[0].key];
      var rest := FilterFields(fs[1..], exclude, parent);
      if path in exclude then rest
      else [Field(fs[0].key, Filter(fs[0].value, exclude, path))] + rest
  }

  function FilterItems(items: seq<Json>, exclude: set<Path>, parent: Path): seq<Json>
  {
    if items == [] then [] else [Filter(items[0], exclude, parent)] + FilterItems(items[1..], exclude, parent)
  }

  /** `filter_excluded_paths(obj, exclude_paths)`: the walk from the root. */
  function FilterExcludedPaths(obj: Json, exclude: set<Path>): Json
  {
    Filter(obj, exclude, [])
  }

  /** True when no dict entry of `j` (reached from `parent`) sits at an
      excluded path. */
  predicate NoExcluded(j: Json, exclude: set<Path>, parent: Path)
  {
    match j
    case Obj(fs) => forall i :: 0 <= i < |fs| ==> EntryClean(fs[i], exclude, parent)
    case Arr(items) => forall i :: 0 <= i < |items| ==> NoExcluded(items[i], exclude, parent)
    case _ => true
  }

  /** The entry's own path is not excluded and nothing below it is. */
  predicate EntryClean(f: Field, exclude: set<Path>, parent: Path)
  {
    parent + [f.key] !in exclude && NoExcluded(f.value, exclude, parent + [f.key])
  }

  /** Lists keep their length and order; each element is filtered with the
      list's own path. */
  lemma {:induction false} FilterItemsPointwise(items: seq<Json>, exclude: set<Path>, parent: Path)
    ensures |FilterItems(items, exclude, parent)| == |items|
    ensures forall i :: 0 <= i < |items| ==> FilterItems(items, exclude, parent)[i] == Filter(items[i], exclude, parent)
  {
    if items != [] {
      FilterItemsPointwise(items[1..], exclude, parent);
      forall i | 0 < i < |items|
        ensures FilterItems(items, exclude, parent)[i] == Filter(items[i], exclude, parent)
      {
        assert items[i] == items[1..][i - 1];
      }
    }
  }

  /** An entry is kept iff its path is not excluded, and a kept entry holds
      its original value, filtered below its own path. */
  lemma {:induction false} FilterFieldsGet(fs: seq<Field>, exclude: set<Path>, parent: Path, key: string)
    ensures Get(FilterFields(fs, exclude, parent), key) ==
      if parent + [key] in exclude then None
      else match Get(fs, key)
        case None => None
        case Some(v) => Some(Filter(v, exclude, parent + [key]))
  {
    if fs != [] {
      FilterFieldsGet(fs[1..], exclude, parent, key);
    }
  }

  /** Corollary: key membership after filtering, in both directions. */
  lemma FilterKeepsKeyIff(fs: seq<Field>, exclude: set<Path>, parent: Path, key: string)
    ensures HasKey(FilterFields(fs, exclude, parent), key) <==> HasKey(fs, key) && parent + [key] !in exclude
  {
    FilterFieldsGet(fs, exclude, parent, key);
  }

  /** The result of a filter holds no excluded path. */
  lemma {:induction false} FilterIsClean(j: Json, exclude: set<Path>, parent: Path)
    ensures NoExcluded(Filter(j, exclude, parent), exclude, parent)
  {
    match j
    case Obj(fs) => FilterFieldsClean(fs, exclude, parent);
    case Arr(items) =>
      FilterItemsPointwise(items, exclude, parent);
      forall i | 0 <= i < |items| ensures NoExcluded(FilterItems(items, exclude, parent)[i], exclude, parent) {
        FilterIsClean(items[i], exclude, parent);
      }
    case _ =>
  }

  lemma {:induction false} FilterFieldsClean(fs: seq<Field>, exclude: set<Path>, parent: Path)
    ensures forall i :: 0 <= i < |FilterFields(fs, exclude, parent)| ==>
      EntryClean(FilterFields(fs, exclude, parent)[i], exclude, parent)
    decreases fs, 1
  {
    if fs != [] {
      var rest := FilterFields(fs[1..], exclude, parent);
      FilterFieldsClean(fs[1..], exclude, parent);
      FilterIsClean(fs[0].value, exclude, parent + [fs[0].key]);
      var r := FilterFields(fs, exclude, parent);
      if parent + [fs[0].key] !in exclude {
        forall i | 0 < i < |r| ensures r[i] == rest[i - 1] { }
      }
    }
  }

  /** A value that already holds no excluded path is left as it is. */
  lemma {:induction false} FilterCleanIsIdentity(j: Json, exclude: set<Path>, parent: Path)
    requires NoExcluded(j, exclude, parent)
    ensures Filter(j, exclude, parent) == j
  {
    match j
    case Obj(fs) => FilterFieldsCleanIsIdentity(fs, exclude, parent);
    case Arr(items) =>
      FilterItemsPointwise(items, exclude, parent);
      forall i | 0 <= i < |items| ensures FilterItems(items, exclude, parent)[i] == items[i] {
        FilterCleanIsIdentity(items[i], exclude, parent);
      }
    case _ =>
  }

  lemma {:induction false} FilterFieldsCleanIsIdentity(fs: seq<Field>, exclude: set<Path>, parent: Path)
    requires forall i :: 0 <= i < |fs| ==> EntryClean(fs[i], exclude, parent)
    ensures FilterFields(fs, exclude, parent) == fs
    decreases fs, 1
  {
    if fs != [] {
      assert forall i :: 0 <= i < |fs[1..]| ==> fs[1..][i] == fs[i + 1];
      FilterFieldsCleanIsIdentity(fs[1..], exclude, parent);
      FilterCleanIsIdentity(fs[0].value, exclude, parent + [fs[0].key]);
      assert fs == [Field(fs[0].key, fs[0].value)] + fs[1..];
    }
  }

  /** Filtering twice with the same paths is filtering once. */
  lemma FilterIdempotent(j: Json, exclude: set<Path>, parent: Path)
    ensures Filter(Filter(j, exclude, parent), exclude, parent) == Filter(j, exclude, parent)
  {
    FilterIsClean(j, exclude, parent);
    FilterCleanIsIdentity(Filter(j, exclude, parent), exclude, parent);
  }

  /** Matching is exact: excluding ('products', 'configurable_fields') drops
      the nested entry but keeps a top-level 'configurable_fields'. */
  lemma FilterMatchesExactly()
    ensures
      var row := Obj([
        Field("products", Arr([Obj([Field("configurable_fields", Arr([Num(7)])), Field("other", Num(1))])])),
        Field("configurable_fields", Num(2))]);
      FilterExcludedPaths(row, {["products", "configurable_fields"]}) ==
        Obj([Field("products", Arr([Obj([Field("other", Num(1))])])), Field("configurable_fields", Num(2))])
  {
    var ex: set<Path> := {["products", "configurable_fields"]};
    var p := ["products"];
    assert [] + ["products"] == p && p !in ex;
    assert [] + ["configurable_fields"] !in ex;
    assert p + ["configurable_fields"] == ["products", "configurable_fields"];
    assert p + ["other"] !in ex by {
      assert p + ["other"] == ["products", "other"];
      assert "other" != "configurable_fields";
    }
    var inner := [Field("configurable_fields", Arr([Num(7)])), Field("other", Num(1))];
    assert FilterFields(inner[1..], ex, p) == [Field("other", Num(1))];
    assert FilterFields(inner, ex, p) == [Field("other", Num(1))];
    var kept := Arr([Obj([Field("other", Num(1))])]);
    assert FilterItems([Obj(inner)], ex, p) == [Obj([Field("other", Num(1))])];
    assert Filter(Arr([Obj(inner)]), ex, p) == kept;
    var top := [Field("products", Arr([Obj(inner)])), Field("configurable_fields", Num(2))];
    assert FilterFields(top[1..], ex, []) == [Field("configurable_fields", Num(2))];
    assert FilterFields(top, ex, []) == [Field("products", kept), Field("configurable_fields", Num(2))];
  }

  // ---------------------------------------------------------------------
  // transform_dates
  // ---------------------------------------------------------------------

  /** The canonical form of a date field, or None when
      `strftime(strptime_to_utc(value))` raises. The parser and the formatter
      are not modelled: `normalize` stands for their composition. */
  function DateRewrite(key: string, value: Json, dateFields: set<string>, normalize: string -> Option<string>): Option<string>
  {
    if key in dateFields && value != Null && value != Str("") && value.Str? then normalize(value.s) else None
  }

  /** `_transform(o)`. A rewritten value is a string, on which the recursive
      call is the identity, so the recursion is taken on the original value
      only when it was not rewritten. A non-string value under a date key
      makes the parser raise and is kept. */
  function TransformDates(j: Json, dateFields: set<string>, normalize: string -> Option<string>): Json
  {
    match j
    case Obj(fs) => Obj(TransformFields(fs, dateFields, normalize))
    case Arr(items) => Arr(TransformItems(items, dateFields, normalize))
    case _ => j
  }

  function TransformFields(fs: seq<Field>, dateFields: set<string>, normalize: string -> Option<string>): seq<Field>
  {
    if fs == [] then []
    else
      var t := DateRewrite(fs[0].key, fs[0].value, dateFields, normalize);
      var v := if t.Some? then Str(t.value) else TransformDates(fs[0].value, dateFields, normalize);
      [Field(fs[0].key, v)] + TransformFields(fs[1..], dateFields, normalize)
  }

  function TransformItems(items: seq<Json>, dateFields: set<string>, normalize: string -> Option<string>): seq<Json>
  {
    if items == [] then []
    else [TransformDates(items[0], dateFields, normalize)] + TransformItems(items[1..], dateFields, normalize)
  }

  /** Normalisation keeps the kind of every node (and every scalar). */
  lemma TransformKeepsKind(j: Json, dateFields: set<string>, normalize: string -> Option<string>)
    ensures var r := TransformDates(j, dateFields, normalize);
      (r.Obj? <==> j.Obj?) && (r.Arr? <==> j.Arr?) && (!j.Obj? && !j.Arr? ==> r == j)
  {
  }

  /** Lists keep their length and order. */
  lemma {:induction false} TransformItemsPointwise(items: seq<Json>, dateFields: set<string>, normalize: string -> Option<string>)
    ensures |TransformItems(items, dateFields, normalize)| == |items|
    ensures forall i :: 0 <= i < |items| ==>
      TransformItems(items, dateFields, normalize)[i] == TransformDates(items[i], dateFields, normalize)
  {
    if items != [] {
      TransformItemsPointwise(items[1..], dateFields, normalize);
      forall i | 0 < i < |items|
        ensures TransformItems(items, dateFields, normalize)[i] == TransformDates(items[i], dateFields, normalize)
      {
        assert items[i] == items[1..][i - 1];
      }
    }
  }

  /** Every key is carried over in place; a value changes only when its key
      is a date field and it is a non-empty string the normaliser accepts,
      otherwise it is the original value, transformed recursively. */
  lemma {:induction false} TransformFieldsPointwise(fs: seq<Field>, dateFields: set<string>, normalize: string -> Option<string>)
    ensures var r := TransformFields(fs, dateFields, normalize);
      |r| == |fs| && Keys(r) == Keys(fs) &&
      forall i :: 0 <= i < |fs| ==>
        r[i].value ==
          if fs[i].key in dateFields && fs[i].value.Str? && fs[i].value.s != "" && normalize(fs[i].value.s).Some?
          then Str(normalize(fs[i].value.s).value)
          else TransformDates(fs[i].value, dateFields, normalize)
  {
    if fs != [] {
      TransformFieldsPointwise(fs[1..], dateFields, normalize);
      var r := TransformFields(fs, dateFields, normalize);
      forall i | 0 < i < |fs| ensures r[i] == TransformFields(fs[1..], dateFields, normalize)[i - 1] && fs[i] == fs[1..][i - 1] {
      }
    }
  }

  /** With no date fields the transform is the identity. */
  lemma {:induction false} TransformWithoutDateFields(j: Json, normalize: string -> Option<string>)
    ensures TransformDates(j, {}, normalize) == j
  {
    match j
    case Obj(fs) => TransformFieldsWithoutDateFields(fs, normalize);
    case Arr(items) =>
      TransformItemsPointwise(items, {}, normalize);
      forall i | 0 <= i < |items| ensures TransformItems(items, {}, normalize)[i] == items[i] {
        TransformWithoutDateFields(items[i], normalize);
      }
    case _ =>
  }

  lemma {:induction false} TransformFieldsWithoutDateFields(fs: seq<Field>, normalize: string -> Option<string>)
    ensures TransformFields(fs, {}, normalize) == fs
    decreases fs, 1
  {
    if fs != [] {
      TransformFieldsWithoutDateFields(fs[1..], normalize);
      TransformWithoutDateFields(fs[0].value, normalize);
    }
  }

  /** The normaliser maps its own output to itself (its output is in the
      canonical format, which it parses back unchanged). */
  ghost predicate Canonical(normalize: string -> Option<string>)
  {
    forall s, t :: normalize(s) == Some(t) ==> normalize(t) == Some(t)
  }

  /** Normalising twice is normalising once. */
  lemma {:induction false} TransformIdempotent(j: Json, dateFields: set<string>, normalize: string -> Option<string>)
    requires Canonical(normalize)
    ensures TransformDates(TransformDates(j, dateFields, normalize), dateFields, normalize) == TransformDates(j, dateFields, normalize)
  {
    match j
    case Obj(fs) => TransformFieldsIdempotent(fs, dateFields, normalize);
    case Arr(items) =>
      var once := TransformItems(items, dateFields, normalize);
      TransformItemsPointwise(items, dateFields, normalize);
      TransformItemsPointwise(once, dateFields, normalize);
      forall i | 0 <= i < |items| ensures TransformItems(once, dateFields, normalize)[i] == once[i] {
        TransformIdempotent(items[i], dateFields, normalize);
      }
    case _ =>
  }

  lemma {:induction false} TransformFieldsIdempotent(fs: seq<Field>, dateFields: set<string>, normalize: string -> Option<string>)
    requires Canonical(normalize)
    ensures TransformFields(TransformFields(fs, dateFields, normalize), dateFields, normalize) == TransformFields(fs, dateFields, normalize)
    decreases fs, 1
  {
    if fs != [] {
      TransformFieldsIdempotent(fs[1..], dateFields, normalize);
      TransformIdempotent(fs[0].value, dateFields, normalize);
      TransformKeepsKind(fs[0].value, dateFields, normalize);
      var t := DateRewrite(fs[0].key, fs[0].value, dateFields, normalize);
      if t.Some? {
        assert normalize(t.value) == Some(t.value);
      }
    }
  }

  /** Normalisation changes no key, so it keeps a filtered value clean. */
  lemma {:induction false} TransformKeepsClean(j: Json, exclude: set<Path>, parent: Path, dateFields: set<string>, normalize: string -> Option<string>)
    requires NoExcluded(j, exclude, parent)
    ensures NoExcluded(TransformDates(j, dateFields, normalize), exclude, parent)
  {
    match j
    case Obj(fs) =>
      var r := TransformFields(fs, dateFields, normalize);
      TransformFieldsPointwise(fs, dateFields, normalize);
      forall i | 0 <= i < |r| ensures EntryClean(r[i], exclude, parent) {
        assert r[i].key == Keys(r)[i] == Keys(fs)[i] == fs[i].key;
        TransformKeepsClean(fs[i].value, exclude, parent + [fs[i].key], dateFields, normalize);
      }
    case Arr(items) =>
      TransformItemsPointwise(items, dateFields, normalize);
      forall i | 0 <= i < |items| ensures NoExcluded(TransformItems(items, dateFields, normalize)[i], exclude, parent) {
        TransformKeepsClean(items[i], exclude, parent, dateFields, normalize);
      }
    case _ =>
  }

  /** Neither walk introduces a pending handle. */
  lemma {:induction false} TransformKeepsResolved(j: Json, dateFields: set<string>, normalize: string -> Option<string>)
    requires NoPending(j)
    ensures NoPending(TransformDates(j, dateFields, normalize))
  {
    match j
    case Obj(fs) =>
      var r := TransformFields(fs, dateFields, normalize);
      TransformFieldsPointwise(fs, dateFields, normalize);
      forall i | 0 <= i < |r| ensures NoPending(r[i].value) {
        TransformKeepsResolved(fs[i].value, dateFields, normalize);
      }
    case Arr(items) =>
      TransformItemsPointwise(items, dateFields, normalize);
      forall i | 0 <= i < |items| ensures NoPending(TransformItems(items, dateFields, normalize)[i]) {
        TransformKeepsResolved(items[i], dateFields, normalize);
      }
    case _ =>
  }

  lemma {:induction false} FilterKeepsResolved(j: Json, exclude: set<Path>, parent: Path)
    requires NoPending(j)
    ensures NoPending(Filter(j, exclude, parent))
  {
    match j
    case Obj(fs) => FilterFieldsKeepResolved(fs, exclude, parent);
    case Arr(items) =>
      FilterItemsPointwise(items, exclude, parent);
      forall i | 0 <= i < |items| ensures NoPending(FilterItems(items, exclude, parent)[i]) {
        FilterKeepsResolved(items[i], exclude, parent);
      }
    case _ =>
  }

  lemma {:induction false} FilterFieldsKeepResolved(fs: seq<Field>, exclude: set<Path>, parent: Path)
    requires forall i :: 0 <= i < |fs| ==> NoPending(fs[i].value)
    ensures forall i :: 0 <= i < |FilterFields(fs, exclude, parent)| ==> NoPending(FilterFields(fs, exclude, parent)[i].value)
    decreases fs, 1
  {
    if fs != [] {
      assert forall i :: 0 <= i < |fs[1..]| ==> fs[1..][i] == fs[i + 1];
      var rest := FilterFields(fs[1..], exclude, parent);
      FilterFieldsKeepResolved(fs[1..], exclude, parent);
      FilterKeepsResolved(fs[0].value, exclude, parent + [fs[0].key]);
      var r := FilterFields(fs, exclude, parent);
      if parent + [fs[0].key] !in exclude {
        forall i | 0 < i < |r| ensures r[i] == rest[i - 1] { }
      }
    }
  }

  // ---------------------------------------------------------------------
  // unpack_nested_resources (asynchronous mode)
  // ---------------------------------------------------------------------

  /** `unpack(row, parent_key)`: every dict value at a non-excluded path that
      is a resource link becomes the handle of a dispatched fetch of its
      'url'; excluded entries are omitted. None is the KeyError raised when a
      link has no 'url'. No fetch is awaited here. */
  function Unpack(j: Json, exclude: set<Path>, parent: Path): Option<Json>
  {
    match j
    case Obj(fs) =>
      (match UnpackFields(fs, exclude, parent) case None => None case Some(r) => Some(Obj(r)))
    case Arr(items) =>
      (match UnpackItems(items, exclude, parent) case None => None case Some(r) => Some(Arr(r)))
    case _ => Some(j)
  }

  function UnpackFields(fs: seq<Field>, exclude: set<Path>, parent: Path): Option<seq<Field>>
  {
    if fs == [] then Some([])
    else
      var path := parent + [fs[0].key];
      if path in exclude then UnpackFields(fs[1..], exclude, parent)
      else
        var v := fs[0].value;
        var head :=
          if IsResourceRef(v) then
            (match Get(v.fields, "url") case None => None case Some(u) => Some(Pending(u)))
          else Unpack(v, exclude, path);
        match head
        case None => None
        case Some(h) =>
          match UnpackFields(fs[1..], exclude, parent)
          case None => None
          case Some(rest) => Some([Field(fs[0].key, h)] + rest)
  }

  function UnpackItems(items: seq<Json>, exclude: set<Path>, parent: Path): Option<seq<Json>>
  {
    if items == [] then Some([])
    else
      match Unpack(items[0], exclude, parent)
      case None => None
      case Some(h) =>
        match UnpackItems(items[1..], exclude, parent)
        case None => None
        case Some(rest) => Some([h] + rest)
  }

  /** Without resource links, unpacking is exactly the path filter: it drops
      the excluded entries and leaves every other node as it was. */
  lemma {:induction false} UnpackWithoutLinksIsFilter(j: Json, exclude: set<Path>, parent: Path)
    requires NoResourceRefs(j)
    ensures Unpack(j, exclude, parent) == Some(Filter(j, exclude, parent))
  {
    match j
    case Obj(fs) => UnpackFieldsWithoutLinks(fs, exclude, parent);
    case Arr(items) => UnpackItemsWithoutLinks(items, exclude, parent);
    case _ =>
  }

  lemma {:induction false} UnpackFieldsWithoutLinks(fs: seq<Field>, exclude: set<Path>, parent: Path)
    requires forall i :: 0 <= i < |fs| ==> !IsResourceRef(fs[i].value) && NoResourceRefs(fs[i].value)
    ensures UnpackFields(fs, exclude, parent) == Some(FilterFields(fs, exclude, parent))
    decreases fs, 1
  {
    if fs != [] {
      assert forall i :: 0 <= i < |fs[1..]| ==> fs[1..][i] == fs[i + 1];
      UnpackFieldsWithoutLinks(fs[1..], exclude, parent);
      UnpackWithoutLinksIsFilter(fs[0].value, exclude, parent + [fs[0].key]);
    }
  }

  lemma {:induction false} UnpackItemsWithoutLinks(items: seq<Json>, exclude: set<Path>, parent: Path)
    requires forall i :: 0 <= i < |items| ==> NoResourceRefs(items[i])
    ensures UnpackItems(items, exclude, parent) == Some(FilterItems(items, exclude, parent))
    decreases items, 1
  {
    if items != [] {
      assert forall i :: 0 <= i < |items[1..]| ==> items[1..][i] == items[i + 1];
      UnpackItemsWithoutLinks(items[1..], exclude, parent);
      UnpackWithoutLinksIsFilter(items[0], exclude, parent);
    }
  }

  /** Each kept entry is a link's handle or the unpacked original value, and
      an entry is kept iff its path is not excluded. */
  lemma {:induction false} UnpackFieldsGet(fs: seq<Field>, exclude: set<Path>, parent: Path, key: string)
    requires UnpackFields(fs, exclude, parent).Some?
    ensures var r := UnpackFields(fs, exclude, parent).value;
      (parent + [key] in exclude || !HasKey(fs, key)) ==> Get(r, key) == None
    ensures var r := UnpackFields(fs, exclude, parent).value;
      parent + [key] !in exclude && HasKey(fs, key) ==>
        var v := Get(fs, key).value;
        if IsResourceRef(v) then
          Get(v.fields, "url").Some? && Get(r, key) == Some(Pending(Get(v.fields, "url").value))
        else
          Unpack(v, exclude, parent + [key]).Some? && Get(r, key) == Some(Unpack(v, exclude, parent + [key]).value)
  {
    if fs != [] {
      UnpackFieldsGet(fs[1..], exclude, parent, key);
    }
  }

  // ---------------------------------------------------------------------
  // resolve_resources
  // ---------------------------------------------------------------------

  /** `resolve_resources(row)`: every pending handle is awaited, in document
      order, and replaced by its response's `.data`; the first fetch that
      raised makes the walk raise. `get(u)` is what awaiting the handle of a
      fetch of `u` gives. */
  function Resolve(j: Json, get: Json -> Result<Json>): Result<Json>
  {
    match j
    case Pending(u) => get(u)
    case Obj(fs) =>
      (match ResolveFields(fs, get) case Err(e) => Err(e) case Ok(r) => Ok(Obj(r)))
    case Arr(items) =>
      (match ResolveItems(items, get) case Err(e) => Err(e) case Ok(r) => Ok(Arr(r)))
    case _ => Ok(j)
  }

  function ResolveFields(fs: seq<Field>, get: Json -> Result<Json>): Result<seq<Field>>
  {
    if fs == [] then Ok([])
    else
      match Resolve(fs[0].value, get)
      case Err(e) => Err(e)
      case Ok(v) =>
        match ResolveFields(fs[1..], get)
        case Err(e) => Err(e)
        case Ok(rest) => Ok([Field(fs[0].key, v)] + rest)
  }

  function ResolveItems(items: seq<Json>, get: Json -> Result<Json>): Result<seq<Json>>
  {
    if items == [] then Ok([])
    else
      match Resolve(items[0], get)
      case Err(e) => Err(e)
      case Ok(v) =>
        match ResolveItems(items[1..], get)
        case Err(e) => Err(e)
        case Ok(rest) => Ok([v] + rest)
  }

  /** Every fetched value is decoded JSON, which holds no pending handle. */
  ghost predicate FetchesResolved(get: Json -> Result<Json>)
  {
    forall u :: get(u).Ok? ==> NoPending(get(u).value)
  }

  /** Resolution succeeds iff every handle's fetch succeeds. */
  lemma {:induction false} ResolveOkIff(j: Json, get: Json -> Result<Json>)
    ensures Resolve(j, get).Ok? <==> forall u :: u in PendingUrls(j) ==> get(u).Ok?
  {
    match j
    case Obj(fs) => ResolveFieldsOkIff(fs, get);
    case Arr(items) => ResolveItemsOkIff(items, get);
    case _ =>
  }

  lemma {:induction false} ResolveFieldsOkIff(fs: seq<Field>, get: Json -> Result<Json>)
    ensures ResolveFields(fs, get).Ok? <==> forall u :: u in FieldsPendingUrls(fs) ==> get(u).Ok?
    decreases fs, 1
  {
    if fs != [] {
      ResolveOkIff(fs[0].value, get);
      ResolveFieldsOkIff(fs[1..], get);
    }
  }

  lemma {:induction false} ResolveItemsOkIff(items: seq<Json>, get: Json -> Result<Json>)
    ensures ResolveItems(items, get).Ok? <==> forall u :: u in ItemsPendingUrls(items) ==> get(u).Ok?
    decreases items, 1
  {
    if items != [] {
      ResolveOkIff(items[0], get);
      ResolveItemsOkIff(items[1..], get);
    }
  }

  /** A failure surfaces at resolution and is the failure of one of the
      handles' own fetches. */
  lemma {:induction false} ResolveErrorIsFetchError(j: Json, get: Json -> Result<Json>)
    requires Resolve(j, get).Err?
    ensures exists u :: u in PendingUrls(j) && get(u) == Err(Resolve(j, get).error)
  {
    match j
    case Pending(u) => assert u in PendingUrls(j);
    case Obj(fs) => ResolveFieldsErrorIsFetchError(fs, get);
    case Arr(items) => ResolveItemsErrorIsFetchError(items, get);
  }

  lemma {:induction false} ResolveFieldsErrorIsFetchError(fs: seq<Field>, get: Json -> Result<Json>)
    requires ResolveFields(fs, get).Err?
    ensures exists u :: u in FieldsPendingUrls(fs) && get(u) == Err(ResolveFields(fs, get).error)
    decreases fs, 1
  {
    if Resolve(fs[0].value, get).Err? {
      ResolveErrorIsFetchError(fs[0].value, get);
    } else {
      ResolveFieldsErrorIsFetchError(fs[1..], get);
    }
  }

  lemma {:induction false} ResolveItemsErrorIsFetchError(items: seq<Json>, get: Json -> Result<Json>)
    requires ResolveItems(items, get).Err?
    ensures exists u :: u in ItemsPendingUrls(items) && get(u) == Err(ResolveItems(items, get).error)
    decreases items, 1
  {
    if Resolve(items[0], get).Err? {
      ResolveErrorIsFetchError(items[0], get);
    } else {
      ResolveItemsErrorIsFetchError(items[1..], get);
    }
  }

  /** After a successful resolution no pending handle remains anywhere. */
  lemma {:induction false} ResolveIsComplete(j: Json, get: Json -> Result<Json>)
    requires FetchesResolved(get)
    requires Resolve(j, get).Ok?
    ensures NoPending(Resolve(j, get).value)
  {
    match j
    case Pending(u) =>
    case Obj(fs) => ResolveFieldsComplete(fs, get);
    case Arr(items) => ResolveItemsComplete(items, get);
    case _ =>
  }

  lemma {:induction false} ResolveFieldsComplete(fs: seq<Field>, get: Json -> Result<Json>)
    requires FetchesResolved(get)
    requires ResolveFields(fs, get).Ok?
    ensures forall i :: 0 <= i < |ResolveFields(fs, get).value| ==> NoPending(ResolveFields(fs, get).value[i].value)
    decreases fs, 1
  {
    if fs != [] {
      ResolveIsComplete(fs[0].value, get);
      ResolveFieldsComplete(fs[1..], get);
    }
  }

  lemma {:induction false} ResolveItemsComplete(items: seq<Json>, get: Json -> Result<Json>)
    requires FetchesResolved(get)
    requires ResolveItems(items, get).Ok?
    ensures forall i :: 0 <= i < |ResolveItems(items, get).value| ==> NoPending(ResolveItems(items, get).value[i])
    decreases items, 1
  {
    if items != [] {
      ResolveIsComplete(items[0], get);
      ResolveItemsComplete(items[1..], get);
    }
  }

  /** A graph without handles resolves to itself, so resolving is
      idempotent on what it produces. */
  lemma {:induction false} ResolveResolvedIsIdentity(j: Json, get: Json -> Result<Json>)
    requires NoPending(j)
    ensures Resolve(j, get) == Ok(j)
  {
    match j
    case Obj(fs) => ResolveFieldsResolvedIsIdentity(fs, get);
    case Arr(items) => ResolveItemsResolvedIsIdentity(items, get);
    case _ =>
  }

  lemma {:induction false} ResolveFieldsResolvedIsIdentity(fs: seq<Field>, get: Json -> Result<Json>)
    requires forall i :: 0 <= i < |fs| ==> NoPending(fs[i].value)
    ensures ResolveFields(fs, get) == Ok(fs)
    decreases fs, 1
  {
    if fs != [] {
      assert forall i :: 0 <= i < |fs[1..]| ==> fs[1..][i] == fs[i + 1];
      ResolveResolvedIsIdentity(fs[0].value, get);
      ResolveFieldsResolvedIsIdentity(fs[1..], get);
      assert fs == [Field(fs[0].key, fs[0].value)] + fs[1..];
    }
  }

  lemma {:induction false} ResolveItemsResolvedIsIdentity(items: seq<Json>, get: Json -> Result<Json>)
    requires forall i :: 0 <= i < |items| ==> NoPending(items[i])
    ensures ResolveItems(items, get) == Ok(items)
    decreases items, 1
  {
    if items != [] {
      assert forall i :: 0 <= i < |items[1..]| ==> items[1..][i] == items[i + 1];
      ResolveResolvedIsIdentity(items[0], get);
      ResolveItemsResolvedIsIdentity(items[1..], get);
      assert items == [items[0]] + items[1..];
    }
  }

  lemma ResolveIdempotent(j: Json, get: Json -> Result<Json>)
    requires FetchesResolved(get)
    requires Resolve(j, get).Ok?
    ensures Resolve(Resolve(j, get).value, get) == Resolve(j, get)
  {
    ResolveIsComplete(j, get);
    ResolveResolvedIsIdentity(Resolve(j, get).value, get);
  }

  // ---------------------------------------------------------------------
  // The two phases against a one-pass reference
  // ---------------------------------------------------------------------

  /** Reference semantics of dispatch-then-resolve: one walk that drops the
      excluded entries and replaces each link in place by its fetched data. */
  function Inline(j: Json, exclude: set<Path>, parent: Path, get: Json -> Result<Json>): Result<Json>
  {
    match j
    case Obj(fs) =>
      (match InlineFields(fs, exclude, parent, get) case Err(e) => Err(e) case Ok(r) => Ok(Obj(r)))
    case Arr(items) =>
      (match InlineItems(items, exclude, parent, get) case Err(e) => Err(e) case Ok(r) => Ok(Arr(r)))
    case _ => Ok(j)
  }

  function InlineFields(fs: seq<Field>, exclude: set<Path>, parent: Path, get: Json -> Result<Json>): Result<seq<Field>>
  {
    if fs == [] then Ok([])
    else
      var path := parent + [fs[0].key];
      if path in exclude then InlineFields(fs[1..], exclude, parent, get)
      else
        var v := fs[0].value;
        var head :=
          if IsResourceRef(v) then
            (match Get(v.fields, "url") case None => Err(KeyError("url")) case Some(u) => get(u))
          else Inline(v, exclude, path, get);
        match head
        case Err(e) => Err(e)
        case Ok(h) =>
          match InlineFields(fs[1..], exclude, parent, get)
          case Err(e) => Err(e)
          case Ok(rest) => Ok([Field(fs[0].key, h)] + rest)
  }

  function InlineItems(items: seq<Json>, exclude: set<Path>, parent: Path, get: Json -> Result<Json>): Result<seq<Json>>
  {
    if items == [] then Ok([])
    else
      match Inline(items[0], exclude, parent, get)
      case Err(e) => Err(e)
      case Ok(h) =>
        match InlineItems(items[1..], exclude, parent, get)
        case Err(e) => Err(e)
        case Ok(rest) => Ok([h] + rest)
  }

  /** On a decoded row, resolving the unpacked row gives exactly the
      one-pass result: every link replaced by its getter's data, excluded
      entries gone, everything else unchanged; and when unpacking raises
      (a link without 'url') the one-pass walk fails too. */
  lemma {:induction false} UnpackThenResolveIsInline(j: Json, exclude: set<Path>, parent: Path, get: Json -> Result<Json>)
    requires NoPending(j)
    ensures Unpack(j, exclude, parent).Some? ==> Resolve(Unpack(j, exclude, parent).value, get) == Inline(j, exclude, parent, get)
    ensures Unpack(j, exclude, parent).None? ==> Inline(j, exclude, parent, get).Err?
  {
    match j
    case Obj(fs) => UnpackThenResolveFields(fs, exclude, parent, get);
    case Arr(items) => UnpackThenResolveItems(items, exclude, parent, get);
    case _ =>
  }

  lemma {:induction false} UnpackThenResolveFields(fs: seq<Field>, exclude: set<Path>, parent: Path, get: Json -> Result<Json>)
    requires forall i :: 0 <= i < |fs| ==> NoPending(fs[i].value)
    ensures UnpackFields(fs, exclude, parent).Some? ==>
      ResolveFields(UnpackFields(fs, exclude, parent).value, get) == InlineFields(fs, exclude, parent, get)
    ensures UnpackFields(fs, exclude, parent).None? ==> InlineFields(fs, exclude, parent, get).Err?
    decreases fs, 1
  {
    if fs != [] {
      assert forall i :: 0 <= i < |fs[1..]| ==> fs[1..][i] == fs[i + 1];
      UnpackThenResolveFields(fs[1..], exclude, parent, get);
      UnpackThenResolveIsInline(fs[0].value, exclude, parent + [fs[0].key], get);
    }
  }

  lemma {:induction false} UnpackThenResolveItems(items: seq<Json>, exclude: set<Path>, parent: Path, get: Json -> Result<Json>)
    requires forall i :: 0 <= i < |items| ==> NoPending(items[i])
    ensures UnpackItems(items, exclude, parent).Some? ==>
      ResolveItems(UnpackItems(items, exclude, parent).value, get) == InlineItems(items, exclude, parent, get)
    ensures UnpackItems(items, exclude, parent).None? ==> InlineItems(items, exclude, parent, get).Err?
    decreases items, 1
  {
    if items != [] {
      assert forall i :: 0 <= i < |items[1..]| ==> items[1..][i] == items[i + 1];
      UnpackThenResolveItems(items[1..], exclude, parent, get);
      UnpackThenResolveIsInline(items[0], exclude, parent, get);
    }
  }

  // ---------------------------------------------------------------------
  // One row of a page: resolve, then filter, then normalise dates
  // ---------------------------------------------------------------------

  /** `transform_dates(filter_excluded_paths(resolve_resources(row), exclude_paths), date_fields)`. */
  function ProcessRow(row: Json, get: Json -> Result<Json>, exclude: set<Path>, dateFields: set<string>,
                      normalize: string -> Option<string>): Result<Json>
  {
    match Resolve(row, get)
    case Err(e) => Err(e)
    case Ok(r) => Ok(TransformDates(FilterExcludedPaths(r, exclude), dateFields, normalize))
  }

  /** No partially resolved or unfiltered structure is ever emitted. */
  lemma ProcessedRowIsClean(row: Json, get: Json -> Result<Json>, exclude: set<Path>, dateFields: set<string>,
                            normalize: string -> Option<string>)
    requires FetchesResolved(get)
    requires ProcessRow(row, get, exclude, dateFields, normalize).Ok?
    ensures var out := ProcessRow(row, get, exclude, dateFields, normalize).value;
      NoPending(out) && NoExcluded(out, exclude, [])
  {
    var r := Resolve(row, get).value;
    ResolveIsComplete(row, get);
    FilterKeepsResolved(r, exclude, []);
    FilterIsClean(r, exclude, []);
    TransformKeepsResolved(Filter(r, exclude, []), dateFields, normalize);
    TransformKeepsClean(Filter(r, exclude, []), exclude, [], dateFields, normalize);
  }
}
