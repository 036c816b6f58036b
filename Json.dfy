/** Decoded JSON values as the API layer sees them.

    A Python dict is an insertion-ordered sequence of fields; a list is a
    sequence. `Pending(url)` is a dispatched but unawaited sub-resource fetch
    (a `concurrent.futures.Future` in the source); it never comes out of a
    JSON decoder, only out of `Unpack`. Numbers are integers: the floating
    point values a body may carry are not modelled. */
module JsonValues {
  import opened Common

  datatype Json =
    | Null
    | Bool(b: bool)
    | Num(n: int)
    | Str(s: string)
    | Arr(items: seq<Json>)
    | Obj(fields: seq<Field>)
    | Pending(url: Json)

  datatype Field = Field(key: string, value: Json)

  /** A key path: the tuple of dict keys from the root to a field. */
  type Path = seq<string>

  function Keys(fs: seq<Field>): (ks: seq<string>)
    ensures |ks| == |fs|
    ensures forall i :: 0 <= i < |fs| ==> ks[i] == fs[i].key
  {
    if fs == [] then [] else [fs[0].key] + Keys(fs[1..])
  }

  /** `key in d`. */
  predicate HasKey(fs: seq<Field>, key: string)
  {
    exists i :: 0 <= i < |fs| && fs[i].key == key
  }

  /** `d[key]`, or None when the key is missing (the first field with that
      key: a decoded dict has no repeated keys). */
  function Get(fs: seq<Field>, key: string): (r: Option<Json>)
    ensures r.Some? <==> HasKey(fs, key)
    ensures r.Some? ==> exists i :: 0 <= i < |fs| && fs[i] == Field(key, r.value)
  {
    if fs == [] then None
    else if fs[0].key == key then Some(fs[0].value)
    else Get(fs[1..], key)
  }

  /** A node shaped `{'resource': ..., 'url': ...}`: the source only asks
      that it be a dict with a 'resource' key. */
  predicate IsResourceRef(j: Json)
  {
    j.Obj? && HasKey(j.fields, "resource")
  }

  /** True when no pending fetch handle occurs anywhere in `j`. */
  predicate NoPending(j: Json)
  {
    match j
    case Pending(_) => false
    case Arr(items) => forall i :: 0 <= i < |items| ==> NoPending(items[i])
    case Obj(fs) => forall i :: 0 <= i < |fs| ==> NoPending(fs[i].value)
    case _ => true
  }

  /** True when no resource-link node occurs as a dict value anywhere in `j`. */
  predicate NoResourceRefs(j: Json)
  {
    match j
    case Arr(items) => forall i :: 0 <= i < |items| ==> NoResourceRefs(items[i])
    case Obj(fs) => forall i :: 0 <= i < |fs| ==> !IsResourceRef(fs[i].value) && NoResourceRefs(fs[i].value)
    case _ => true
  }

  /** The url operands of every pending handle in `j`. */
  function PendingUrls(j: Json): set<Json>
  {
    match j
    case Pending(u) => {u}
    case Arr(items) => ItemsPendingUrls(items)
    case Obj(fs) => FieldsPendingUrls(fs)
    case _ => {}
  }

  function ItemsPendingUrls(items: seq<Json>): set<Json>
  {
    if items == [] then {} else PendingUrls(items[0]) + ItemsPendingUrls(items[1..])
  }

  function FieldsPendingUrls(fs: seq<Field>): set<Json>
  {
    if fs == [] then {} else PendingUrls(fs[0].value) + FieldsPendingUrls(fs[1..])
  }

  /** A graph without pending handles has no pending urls, and back. */
  lemma {:induction false} NoPendingIffNoUrls(j: Json)
    ensures NoPending(j) <==> PendingUrls(j) == {}
  {
    match j
    case Pending(u) =>
      assert u in PendingUrls(j);
    case Arr(items) =>
      ItemsNoPendingIffNoUrls(items);
    case Obj(fs) =>
      FieldsNoPendingIffNoUrls(fs);
    case _ =>
  }

  lemma {:induction false} ItemsNoPendingIffNoUrls(items: seq<Json>)
    ensures (forall i :: 0 <= i < |items| ==> NoPending(items[i])) <==> ItemsPendingUrls(items) == {}
    decreases items, 1
  {
    if items != [] {
      NoPendingIffNoUrls(items[0]);
      ItemsNoPendingIffNoUrls(items[1..]);
      if ItemsPendingUrls(items) == {} {
        forall i | 0 <= i < |items| ensures NoPending(items[i]) {
          if i > 0 { assert items[i] == items[1..][i - 1]; }
        }
      }
    }
  }

  lemma {:induction false} FieldsNoPendingIffNoUrls(fs: seq<Field>)
    ensures (forall i :: 0 <= i < |fs| ==> NoPending(fs[i].value)) <==> FieldsPendingUrls(fs) == {}
    decreases fs, 1
  {
    if fs != [] {
      NoPendingIffNoUrls(fs[0].value);
      FieldsNoPendingIffNoUrls(fs[1..]);
      if FieldsPendingUrls(fs) == {} {
        forall i | 0 <= i < |fs| ensures NoPending(fs[i].value) {
          if i > 0 { assert fs[i] == fs[1..][i - 1]; }
        }
      }
    }
  }
}
