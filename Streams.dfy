/** The bookmark logic of `Stream` (tap_bigcommerce/streams.py): the
    "newer than" comparison, the session and state bookmarks, and the
    record loop of `sync`.

    Replication values are JSON values, with `Null` for Python's None.
    Dates are compared after parsing; the parser is a parameter that maps
    a date string to an instant (seconds since the epoch) or fails. */
module Streams {
  import opened Common
  import opened JsonValues

  /** `utils.strptime_with_tz`: an instant, or None for a string that is
      no date. */
  type DateParser = string -> Option<int>

  /** The replication keys whose values are compared as dates. */
  const DateKeys: set<string> := {"date_modified", "date_created"}

  /** Python's `a > b` on strings: code point by code point, a proper
      prefix being the smaller. */
  predicate StrGreater(a: string, b: string)
    decreases |a|
  {
    if a == [] then false
    else if b == [] then true
    else if a[0] != b[0] then a[0] > b[0]
    else StrGreater(a[1..], b[1..])
  }

  lemma {:induction false} StrGreaterIrreflexive(a: string)
    ensures !StrGreater(a, a)
    decreases |a|
  {
    if a != [] {
      StrGreaterIrreflexive(a[1..]);
    }
  }

  lemma {:induction false} StrGreaterAsymmetric(a: string, b: string)
    requires StrGreater(a, b)
    ensures !StrGreater(b, a)
    decreases |a|
  {
    if a != [] && b != [] && a[0] == b[0] {
      StrGreaterAsymmetric(a[1..], b[1..]);
    }
  }

  lemma {:induction false} StrGreaterTransitive(a: string, b: string, c: string)
    requires StrGreater(a, b) && StrGreater(b, c)
    ensures StrGreater(a, c)
    decreases |a|
  {
    if c != [] && a[0] == b[0] && b[0] == c[0] {
      StrGreaterTransitive(a[1..], b[1..], c[1..]);
    }
  }

  /** Two different strings are ordered one way or the other. */
  lemma {:induction false} StrGreaterTotal(a: string, b: string)
    requires a != b
    ensures StrGreater(a, b) || StrGreater(b, a)
    decreases |a|
  {
    if a != [] && b != [] && a[0] == b[0] {
      assert a == [a[0]] + a[1..] && b == [b[0]] + b[1..];
      StrGreaterTotal(a[1..], b[1..]);
    }
  }

  /** A date value parsed: only a string that parses is a date. */
  function ParseDate(parse: DateParser, j: Json): Result<int>
  {
    if !j.Str? then Err(TypeError)
    else match parse(j.s)
      case None => Err(ValueError)
      case Some(t) => Ok(t)
  }

  /** `value > bookmark` on plain values: numbers with numbers, strings with
      strings; any other pair raises. */
  function Greater(a: Json, b: Json): Result<bool>
  {
    if a.Num? && b.Num? then Ok(a.n > b.n)
    else if a.Str? && b.Str? then Ok(StrGreater(a.s, b.s))
    else Err(TypeError)
  }

  /** `is_bookmark_old(value, bookmark)`: never for a missing value, always
      against a missing bookmark, otherwise strictly newer, as instants for
      the date keys. */
  function IsBookmarkOld(key: Option<string>, parse: DateParser, value: Json, bookmark: Json): Result<bool>
  {
    if value.Null? then Ok(false)
    else if bookmark.Null? then Ok(true)
    else if key.Some? && key.value in DateKeys then
      match ParseDate(parse, value)
      case Err(e) => Err(e)
      case Ok(v) =>
        match ParseDate(parse, bookmark)
        case Err(e) => Err(e)
        case Ok(b) => Ok(v > b)
    else Greater(value, bookmark)
  }

  /** Shorthand: `value` is strictly newer than `bookmark`. */
  predicate Newer(key: Option<string>, parse: DateParser, value: Json, bookmark: Json)
  {
    IsBookmarkOld(key, parse, value, bookmark) == Ok(true)
  }

  /** For a date key the comparison is that of the instants, whatever the
      texts look like: two values in different date formats compare by the
      moments they denote. */
  lemma DatesCompareAsInstants(key: string, parse: DateParser, value: string, bookmark: string)
    requires key in DateKeys
    requires parse(value).Some? && parse(bookmark).Some?
    ensures IsBookmarkOld(Some(key), parse, Str(value), Str(bookmark)) == Ok(parse(value).value > parse(bookmark).value)
  {
  }

  /** A text that is no date raises, on either side. */
  lemma UnparseableDateRaises(key: string, parse: DateParser, value: string, bookmark: string)
    requires key in DateKeys
    requires parse(value).None? || parse(bookmark).None?
    ensures IsBookmarkOld(Some(key), parse, Str(value), Str(bookmark)) == Err(ValueError)
  {
  }

  /** Nothing is newer than itself. */
  lemma NewerIrreflexive(key: Option<string>, parse: DateParser, v: Json)
    ensures !Newer(key, parse, v, v)
    ensures v.Null? ==> IsBookmarkOld(key, parse, v, v) == Ok(false)
  {
    if v.Str? {
      StrGreaterIrreflexive(v.s);
    }
  }

  /** Of two values, at most one is newer than the other, and when one is,
      comparing the other way round does not raise. */
  lemma NewerAsymmetric(key: Option<string>, parse: DateParser, a: Json, b: Json)
    requires Newer(key, parse, a, b)
    ensures IsBookmarkOld(key, parse, b, a) == Ok(false)
  {
    if a.Str? && b.Str? && !(key.Some? && key.value in DateKeys) {
      StrGreaterAsymmetric(a.s, b.s);
    }
  }

  /** Newer than something newer is newer. */
  lemma NewerTransitive(key: Option<string>, parse: DateParser, a: Json, b: Json, c: Json)
    requires Newer(key, parse, a, b) && Newer(key, parse, b, c)
    ensures Newer(key, parse, a, c)
  {
    if a.Str? && b.Str? && c.Str? && !(key.Some? && key.value in DateKeys) {
      StrGreaterTransitive(a.s, b.s, c.s);
    }
  }

  // ---------------------------------------------------------------------
  // The singer state
  // ---------------------------------------------------------------------

  /** `state['bookmarks']`: per stream, per replication key, the value. */
  type Bookmarks = map<string, map<Option<string>, Json>>

  /** `singer.get_bookmark(state, stream, key)`: None when absent. */
  function GetBookmark(b: Bookmarks, stream: string, key: Option<string>): Json
  {
    if stream in b && key in b[stream] then b[stream][key] else Null
  }

  /** `singer.write_bookmark(state, stream, key, value)`. */
  function WriteBookmark(b: Bookmarks, stream: string, key: Option<string>, value: Json): (r: Bookmarks)
    ensures r.Keys == b.Keys + {stream}
  {
    b[stream := (if stream in b then b[stream] else map[])[key := value]]
  }

  /** A written bookmark reads back, and no other bookmark changes. */
  lemma WriteThenGet(b: Bookmarks, stream: string, key: Option<string>, value: Json,
                     stream': string, key': Option<string>)
    ensures GetBookmark(WriteBookmark(b, stream, key, value), stream', key') ==
      (if stream' == stream && key' == key then value else GetBookmark(b, stream', key'))
  {
  }

  /** The mutable `state` dict a sync updates. */
  class State {
    var bookmarks: Bookmarks

    constructor(bookmarks: Bookmarks)
      ensures this.bookmarks == bookmarks
    {
      this.bookmarks := bookmarks;
    }

    function Get(stream: string, key: Option<string>): Json
      reads this
    {
      GetBookmark(bookmarks, stream, key)
    }

    method Write(stream: string, key: Option<string>, value: Json)
      modifies this
      ensures bookmarks == WriteBookmark(old(bookmarks), stream, key, value)
    {
      var inner := if stream in bookmarks then bookmarks[stream] else map[];
      bookmarks := bookmarks[stream := inner[key := value]];
    }
  }

  // ---------------------------------------------------------------------
  // The two bookmark updates
  // ---------------------------------------------------------------------

  /** `update_session_bookmark_if_old(value)`: the session bookmark, and
      the exception the comparison raised, if any. A missing session
      bookmark takes the value before the comparison, and keeps it when the
      comparison raises. */
  function NextSession(key: Option<string>, parse: DateParser, session: Json, value: Json): (Json, Option<Failure>)
  {
    var s1 := if session.Null? then value else session;
    match IsBookmarkOld(key, parse, value, s1)
    case Err(e) => (s1, Some(e))
    case Ok(newer) => (if newer then value else s1, None)
  }

  /** The session bookmark is a running maximum: it becomes the value or
      stays; the value is then not newer than it; and it never becomes
      older than it was. */
  lemma NextSessionIsMax(key: Option<string>, parse: DateParser, session: Json, value: Json)
    ensures NextSession(key, parse, session, value).0 == value || NextSession(key, parse, session, value).0 == session
    ensures session.Null? ==> NextSession(key, parse, session, value).0 == value
    ensures NextSession(key, parse, session, value).1.None? ==>
      IsBookmarkOld(key, parse, value, NextSession(key, parse, session, value).0) == Ok(false)
    ensures !Newer(key, parse, session, NextSession(key, parse, session, value).0)
  {
    var s1 := if session.Null? then value else session;
    NewerIrreflexive(key, parse, s1);
    NewerIrreflexive(key, parse, value);
    if Newer(key, parse, value, s1) {
      NewerAsymmetric(key, parse, value, s1);
    }
  }

  /** `update_bookmark_if_old(state)`: the bookmarks, and the exception the
      comparison raised, if any. */
  function NextBookmarks(key: Option<string>, parse: DateParser, stream: string, b: Bookmarks, session: Json)
    : (Bookmarks, Option<Failure>)
  {
    match IsBookmarkOld(key, parse, session, GetBookmark(b, stream, key))
    case Err(e) => (b, Some(e))
    case Ok(newer) => (if newer then WriteBookmark(b, stream, key, session) else b, None)
  }

  /** The stored bookmark only ever advances, to the session bookmark, and
      the bookmarks of other streams and keys are untouched. */
  lemma NextBookmarksAdvances(key: Option<string>, parse: DateParser, stream: string, b: Bookmarks, session: Json,
                              stream': string, key': Option<string>)
    ensures (stream', key') != (stream, key) ==>
      GetBookmark(NextBookmarks(key, parse, stream, b, session).0, stream', key') == GetBookmark(b, stream', key')
    ensures var stored := GetBookmark(NextBookmarks(key, parse, stream, b, session).0, stream, key);
      (stored == GetBookmark(b, stream, key) && NextBookmarks(key, parse, stream, b, session).0 == b) ||
      (stored == session && Newer(key, parse, session, GetBookmark(b, stream, key)))
    ensures !Newer(key, parse, GetBookmark(b, stream, key), GetBookmark(NextBookmarks(key, parse, stream, b, session).0, stream, key))
  {
    var stored := GetBookmark(b, stream, key);
    WriteThenGet(b, stream, key, session, stream', key');
    WriteThenGet(b, stream, key, session, stream, key);
    NewerIrreflexive(key, parse, stored);
    if Newer(key, parse, session, stored) {
      NewerAsymmetric(key, parse, session, stored);
    }
  }

  // ---------------------------------------------------------------------
  // The record loop
  // ---------------------------------------------------------------------

  /** `item[self.replication_key]`: a KeyError for a missing key (and for
      a stream without one), a TypeError for a record that is no dict. */
  function ReplicationValue(item: Json, key: Option<string>): Result<Json>
  {
    if !item.Obj? then Err(TypeError)
    else if key.None? then Err(KeyError("None"))
    else match Get(item.fields, key.value)
      case None => Err(KeyError(key.value))
      case Some(v) => Ok(v)
  }

  /** The record passes the incremental filter: it has a replication value
      and that value is strictly newer than the bookmark at the start. */
  predicate Selects(key: Option<string>, parse: DateParser, start: Json, item: Json)
  {
    ReplicationValue(item, key).Ok? && Newer(key, parse, ReplicationValue(item, key).value, start)
  }

  /** The records an incremental sync yields, in order. */
  function Selected(key: Option<string>, parse: DateParser, start: Json, items: seq<Json>): seq<Json>
  {
    if items == [] then []
    else (if Selects(key, parse, start, items[0]) then [items[0]] else []) + Selected(key, parse, start, items[1..])
  }

  lemma {:induction false} SelectedAppend(key: Option<string>, parse: DateParser, start: Json, a: seq<Json>, b: seq<Json>)
    ensures Selected(key, parse, start, a + b) == Selected(key, parse, start, a) + Selected(key, parse, start, b)
  {
    if a == [] {
      assert a + b == b;
    } else {
      var head := if Selects(key, parse, start, a[0]) then [a[0]] else [];
      assert (a + b)[0] == a[0] && (a + b)[1..] == a[1..] + b;
      SelectedAppend(key, parse, start, a[1..], b);
      assert Selected(key, parse, start, a + b) == head + Selected(key, parse, start, a[1..] + b);
      assert Selected(key, parse, start, a) == head + Selected(key, parse, start, a[1..]);
    }
  }

  /** Exactly the records strictly newer than the start bookmark are
      yielded: every yielded record is one of them, and each of them is
      yielded. */
  lemma {:induction false} SelectedExactly(key: Option<string>, parse: DateParser, start: Json, items: seq<Json>)
    ensures forall x :: x in Selected(key, parse, start, items) <==> x in items && Selects(key, parse, start, x)
    ensures |Selected(key, parse, start, items)| <= |items|
  {
    if items != [] {
      SelectedExactly(key, parse, start, items[1..]);
      assert items == [items[0]] + items[1..];
    }
  }

  /** One record of the loop, after the filter let it through: the session
      bookmark is updated and, unless that raised, the stored one. */
  function Track(key: Option<string>, parse: DateParser, stream: string, session: Json, b: Bookmarks, value: Json)
    : (Json, Bookmarks)
  {
    var ns := NextSession(key, parse, session, value);
    if ns.1.Some? then (ns.0, b) else (ns.0, NextBookmarks(key, parse, stream, b, ns.0).0)
  }

  /** One yielded record moves the stored bookmark only forward, and only
      its own. */
  lemma TrackAdvances(key: Option<string>, parse: DateParser, stream: string, session: Json, b: Bookmarks,
                      value: Json, stream': string, key': Option<string>)
    ensures var stored := GetBookmark(Track(key, parse, stream, session, b, value).1, stream, key);
      stored == GetBookmark(b, stream, key) || Newer(key, parse, stored, GetBookmark(b, stream, key))
    ensures (stream', key') != (stream, key) ==>
      GetBookmark(Track(key, parse, stream, session, b, value).1, stream', key') == GetBookmark(b, stream', key')
  {
    var ns := NextSession(key, parse, session, value);
    if ns.1.None? {
      NextBookmarksAdvances(key, parse, stream, b, ns.0, stream', key');
    }
  }

  /** The session and stored bookmarks after the records. */
  function Tracked(key: Option<string>, parse: DateParser, stream: string, start: Json,
                   session: Json, b: Bookmarks, items: seq<Json>): (Json, Bookmarks)
    decreases |items|
  {
    if items == [] then (session, b)
    else
      var next := if Selects(key, parse, start, items[0])
        then Track(key, parse, stream, session, b, ReplicationValue(items[0], key).value)
        else (session, b);
      Tracked(key, parse, stream, start, next.0, next.1, items[1..])
  }

  /** The first record of a sync: whether it is yielded, and the state the
      rest of the sync starts from. */
  lemma SyncStep(key: Option<string>, parse: DateParser, stream: string, start: Json,
                 session: Json, b: Bookmarks, items: seq<Json>)
    requires items != []
    ensures Selected(key, parse, start, items) ==
      (if Selects(key, parse, start, items[0]) then [items[0]] else []) + Selected(key, parse, start, items[1..])
    ensures Tracked(key, parse, stream, start, session, b, items) ==
      if Selects(key, parse, start, items[0])
      then Tracked(key, parse, stream, start,
                   Track(key, parse, stream, session, b, ReplicationValue(items[0], key).value).0,
                   Track(key, parse, stream, session, b, ReplicationValue(items[0], key).value).1, items[1..])
      else Tracked(key, parse, stream, start, session, b, items[1..])
  {
  }

  /** Over a whole sync the stored bookmark stays or moves to something
      strictly newer, and no other bookmark changes. */
  lemma {:induction false} TrackedAdvances(key: Option<string>, parse: DateParser, stream: string, start: Json,
                                           session: Json, b: Bookmarks, items: seq<Json>,
                                           stream': string, key': Option<string>)
    decreases |items|
    ensures var stored := GetBookmark(Tracked(key, parse, stream, start, session, b, items).1, stream, key);
      stored == GetBookmark(b, stream, key) || Newer(key, parse, stored, GetBookmark(b, stream, key))
    ensures (stream', key') != (stream, key) ==>
      GetBookmark(Tracked(key, parse, stream, start, session, b, items).1, stream', key') == GetBookmark(b, stream', key')
  {
    if items != [] {
      var next := if Selects(key, parse, start, items[0])
        then Track(key, parse, stream, session, b, ReplicationValue(items[0], key).value)
        else (session, b);
      if Selects(key, parse, start, items[0]) {
        TrackAdvances(key, parse, stream, session, b, ReplicationValue(items[0], key).value, stream', key');
      }
      TrackedAdvances(key, parse, stream, start, next.0, next.1, items[1..], stream', key');
      var stored := GetBookmark(Tracked(key, parse, stream, start, session, b, items).1, stream, key);
      var mid := GetBookmark(next.1, stream, key);
      if stored != mid && mid != GetBookmark(b, stream, key) {
        NewerTransitive(key, parse, stored, mid, GetBookmark(b, stream, key));
      }
    }
  }

  /** A `Stream` subclass: its name, replication settings and date parser
      are fixed; the two bookmarks are the fields `sync` updates. */
  class Stream {
    const name: string
    const replicationMethod: string
    const replicationKey: Option<string>
    const keyProperties: seq<string>
    const parse: DateParser
    var bookmarkStart: Json
    var sessionBookmark: Json

    constructor(name: string, replicationMethod: string, replicationKey: Option<string>,
                keyProperties: seq<string>, parse: DateParser)
      ensures this.name == name && this.replicationMethod == replicationMethod
      ensures this.replicationKey == replicationKey && this.keyProperties == keyProperties && this.parse == parse
      ensures bookmarkStart == Null && sessionBookmark == Null
    {
      this.name := name;
      this.replicationMethod := replicationMethod;
      this.replicationKey := replicationKey;
      this.keyProperties := keyProperties;
      this.parse := parse;
      bookmarkStart := Null;
      sessionBookmark := Null;
    }

    /** `update_session_bookmark_if_old(value)`; the exception, if any. */
    method UpdateSessionBookmarkIfOld(value: Json) returns (err: Option<Failure>)
      modifies this
      ensures (sessionBookmark, err) == NextSession(replicationKey, parse, old(sessionBookmark), value)
      ensures bookmarkStart == old(bookmarkStart)
    {
      if sessionBookmark.Null? {
        sessionBookmark := value;
      }
      var newer := IsBookmarkOld(replicationKey, parse, value, sessionBookmark);
      if newer.Err? {
        return Some(newer.error);
      }
      if newer.value {
        sessionBookmark := value;
      }
      err := None;
    }

    /** `update_bookmark_if_old(state)`; the exception, if any. */
    method UpdateBookmarkIfOld(state: State) returns (err: Option<Failure>)
      modifies state
      ensures (state.bookmarks, err) == NextBookmarks(replicationKey, parse, name, old(state.bookmarks), sessionBookmark)
    {
      var newer := IsBookmarkOld(replicationKey, parse, sessionBookmark, state.Get(name, replicationKey));
      if newer.Err? {
        return Some(newer.error);
      }
      if newer.value {
        state.Write(name, replicationKey, sessionBookmark);
      }
      err := None;
    }

    /** One pass of the loop of an incremental `sync`: whether the record
        is yielded, and the bookmarks it moves when it is. An exception of
        either update ends the pass and is swallowed. */
    method SyncRecord(state: State, item: Json) returns (kept: bool)
      modifies this, state
      ensures kept == Selects(replicationKey, parse, bookmarkStart, item)
      ensures bookmarkStart == old(bookmarkStart)
      ensures (sessionBookmark, state.bookmarks) ==
        (if kept then Track(replicationKey, parse, name, old(sessionBookmark), old(state.bookmarks),
                            ReplicationValue(item, replicationKey).value)
         else (old(sessionBookmark), old(state.bookmarks)))
    {
      kept := false;
      var value := ReplicationValue(item, replicationKey);
      if value.Ok? {
        var newer := IsBookmarkOld(replicationKey, parse, value.value, bookmarkStart);
        if newer == Ok(true) {
          kept := true;
          var err := UpdateSessionBookmarkIfOld(value.value);
          if err.None? {
            err := UpdateBookmarkIfOld(state);
          }
        }
      }
    }

    /** The loop of an incremental `sync` over the records, from the
        bookmark read at its start. */
    method SyncRecords(state: State, records: seq<Json>) returns (out: seq<Json>)
      modifies this, state
      ensures bookmarkStart == old(bookmarkStart)
      ensures out == Selected(replicationKey, parse, bookmarkStart, records)
      ensures (sessionBookmark, state.bookmarks) ==
        Tracked(replicationKey, parse, name, bookmarkStart, old(sessionBookmark), old(state.bookmarks), records)
    {
      out := [];
      var i := 0;
      while i < |records|
        invariant 0 <= i <= |records|
        invariant bookmarkStart == old(bookmarkStart)
        invariant out + Selected(replicationKey, parse, bookmarkStart, records[i..]) ==
          Selected(replicationKey, parse, bookmarkStart, records)
        invariant Tracked(replicationKey, parse, name, bookmarkStart, sessionBookmark, state.bookmarks, records[i..]) ==
          Tracked(replicationKey, parse, name, bookmarkStart, old(sessionBookmark), old(state.bookmarks), records)
      {
        assert records[i..][0] == records[i] && records[i..][1..] == records[i + 1..];
        SyncStep(replicationKey, parse, name, bookmarkStart, sessionBookmark, state.bookmarks, records[i..]);
        var kept := SyncRecord(state, records[i]);
        if kept {
          out := out + [records[i]];
        }
        i := i + 1;
      }
      assert records[i..] == [];
      assert out + [] == out;
    }

    /** `sync(state)` over the records its query returns. An incremental
        sync yields the records strictly newer than the stored bookmark and
        swallows the exceptions of each record; a full-table sync yields
        every record; any other method raises. */
    method Sync(state: State, records: seq<Json>) returns (yielded: Result<seq<Json>>)
      modifies this, state
      ensures replicationMethod == "INCREMENTAL" ==>
        bookmarkStart == GetBookmark(old(state.bookmarks), name, replicationKey) &&
        yielded == Ok(Selected(replicationKey, parse, bookmarkStart, records)) &&
        (sessionBookmark, state.bookmarks) ==
          Tracked(replicationKey, parse, name, bookmarkStart, old(sessionBookmark), old(state.bookmarks), records)
      ensures replicationMethod == "FULL_TABLE" ==>
        yielded == Ok(records) && state.bookmarks == old(state.bookmarks) &&
        sessionBookmark == old(sessionBookmark) && bookmarkStart == old(bookmarkStart)
      ensures replicationMethod !in {"INCREMENTAL", "FULL_TABLE"} ==>
        yielded == Err(ClientError("Replication method not defined for " + name)) &&
        state.bookmarks == old(state.bookmarks) &&
        sessionBookmark == old(sessionBookmark) && bookmarkStart == old(bookmarkStart)
    {
      if replicationMethod == "INCREMENTAL" {
        bookmarkStart := state.Get(name, replicationKey);
        var out := SyncRecords(state, records);
        yielded := Ok(out);
      } else if replicationMethod == "FULL_TABLE" {
        yielded := Ok(records);
      } else {
        yielded := Err(ClientError("Replication method not defined for " + name));
      }
    }
  }
}
