/** The client of the tap (tap_bigcommerce/client.py): the argument
    decorators `parse_date_string_arguments` and `validate`, the day windows
    of `iterdates`, the query each entity sends to `resource`, and the
    class `BigCommerce` with its `authorized` flag. */
module TapClient {
  import opened Common
  import opened JsonValues
  import opened RateLimits
  import opened Paginator
  import opened BigcommerceApi

  // ---------------------------------------------------------------------
  // Instants and the date functions the client leaves to libraries
  // ---------------------------------------------------------------------

  /** A moment, in microseconds: the resolution of Python's `datetime`. */
  type Instant = int

  /** A `datetime`: its reading, and whether it carries a time zone (an
      aware datetime, whose reading is the moment it denotes) or not (a
      naive one). A naive datetime cannot be subtracted from an aware one. */
  datatype Datetime = Datetime(t: Instant, aware: bool)

  /** `timedelta(1)`: one day, in microseconds. */
  const Day: int := 86_400_000_000

  /** The library date functions: `dateutil.parser.parse` (None where it
      raises), `isoformat()` and `str()` of a datetime. */
  datatype Dates = Dates(parse: string -> Option<Datetime>, iso: Datetime -> string, show: Datetime -> string)

  // ---------------------------------------------------------------------
  // Keyword arguments and the two decorators
  // ---------------------------------------------------------------------

  /** A keyword argument's value: a string, a datetime, or anything else
      (kept by its `str()`). */
  datatype Arg = Text(s: string) | Moment(t: Datetime) | Other(display: string)

  /** `**kwargs` in order of insertion. */
  type Kwargs = seq<(string, Arg)>

  /** `kwargs.get(key)`. */
  function Lookup(kw: Kwargs, key: string): Option<Arg>
    decreases |kw|
  {
    if kw == [] then None else if kw[0].0 == key then Some(kw[0].1) else Lookup(kw[1..], key)
  }

  /** `'{}'.format(value)`. */
  function Display(dates: Dates, v: Arg): string
  {
    match v
    case Text(s) => s
    case Moment(t) => dates.show(t)
    case Other(d) => d
  }

  /** A designated argument that `parse_date_string_arguments` accepts: a
      string the parser reads. */
  predicate Parsable(dates: Dates, v: Arg)
  {
    v.Text? && dates.parse(v.s).Some?
  }

  /** What a designated argument that is not parsable raises: the client
      error naming the value when it is not a string, and the parser's
      ValueError when it is. */
  function ArgError(dates: Dates, v: Arg): Failure
  {
    if v.Text? then ValueError
    else ClientError("parse_date_string_arguments expects string value." + Display(dates, v) + " provided")
  }

  /** One argument after the decorator: a designated, parsable string is
      replaced by its datetime; any other argument is left alone. */
  function Converted(fields: seq<string>, dates: Dates, kv: (string, Arg)): (string, Arg)
  {
    if kv.0 in fields && Parsable(dates, kv.1) then (kv.0, Moment(dates.parse(kv.1.s).value)) else kv
  }

  /** `parse_date_string_arguments(fields)` applied to a call's keyword
      arguments: the arguments the wrapped method receives, or the
      exception of the first designated argument it cannot parse. */
  function ParseArgs(fields: seq<string>, dates: Dates, kw: Kwargs): Result<Kwargs>
    decreases |kw|
  {
    if kw == [] then Ok([])
    else if kw[0].0 in fields && !Parsable(dates, kw[0].1) then Err(ArgError(dates, kw[0].1))
    else match ParseArgs(fields, dates, kw[1..])
      case Err(e) => Err(e)
      case Ok(rest) => Ok([Converted(fields, dates, kw[0])] + rest)
  }

  /** Arguments already converted, ahead of the result for the rest. */
  function Then(done: Kwargs, r: Result<Kwargs>): Result<Kwargs>
  {
    match r
    case Err(e) => Err(e)
    case Ok(rest) => Ok(done + rest)
  }

  /** The `for key, value in kwargs.items()` loop of `parse_dt`, replacing
      each designated argument in place. */
  method ParseDateStringArguments(fields: seq<string>, dates: Dates, kwargs: Kwargs) returns (r: Result<Kwargs>)
    ensures r == ParseArgs(fields, dates, kwargs)
  {
    var current := kwargs;
    var i := 0;
    assert kwargs[0..] == kwargs;
    ThenNothing(ParseArgs(fields, dates, kwargs));
    while i < |current|
      invariant 0 <= i <= |kwargs| == |current|
      invariant current[i..] == kwargs[i..]
      invariant ParseArgs(fields, dates, kwargs) == Then(current[..i], ParseArgs(fields, dates, kwargs[i..]))
    {
      var key := current[i].0;
      var value := current[i].1;
      assert kwargs[i..][0] == (key, value);
      if key in fields {
        if !value.Text? {
          return Err(ArgError(dates, value));
        }
        var parsed := dates.parse(value.s);
        if parsed.None? {
          return Err(ValueError);
        }
        current := current[i := (key, Moment(parsed.value))];
      }
      ParseArgsStep(fields, dates, current[..i], kwargs[i..]);
      assert kwargs[i..][1..] == kwargs[i + 1..];
      assert current[..i + 1] == current[..i] + [Converted(fields, dates, kwargs[i])];
      i := i + 1;
    }
    assert kwargs[i..] == [];
    assert current[..i] + [] == current;
    r := Ok(current);
  }

  lemma ThenNothing(r: Result<Kwargs>)
    ensures Then([], r) == r
  {
    if r.Ok? {
      assert [] + r.value == r.value;
    }
  }

  /** One argument of the loop, when it does not raise. */
  lemma ParseArgsStep(fields: seq<string>, dates: Dates, done: Kwargs, kw: Kwargs)
    requires kw != [] && !(kw[0].0 in fields && !Parsable(dates, kw[0].1))
    ensures Then(done, ParseArgs(fields, dates, kw)) ==
      Then(done + [Converted(fields, dates, kw[0])], ParseArgs(fields, dates, kw[1..]))
  {
    var r := ParseArgs(fields, dates, kw[1..]);
    if r.Ok? {
      assert (done + [Converted(fields, dates, kw[0])]) + r.value == done + ([Converted(fields, dates, kw[0])] + r.value);
    }
  }

  /** The decorator succeeds iff every designated argument parses. */
  lemma {:induction false} ParseArgsOkIff(fields: seq<string>, dates: Dates, kw: Kwargs)
    ensures ParseArgs(fields, dates, kw).Ok? <==>
      forall i :: 0 <= i < |kw| && kw[i].0 in fields ==> Parsable(dates, kw[i].1)
    decreases |kw|
  {
    if kw != [] {
      ParseArgsOkIff(fields, dates, kw[1..]);
      assert forall i :: 0 < i < |kw| ==> kw[i] == kw[1..][i - 1];
    }
  }

  /** A successful decorator passes every argument on in order, converting
      exactly the designated ones. */
  lemma {:induction false} ParseArgsConverts(fields: seq<string>, dates: Dates, kw: Kwargs)
    requires ParseArgs(fields, dates, kw).Ok?
    ensures |ParseArgs(fields, dates, kw).value| == |kw|
    ensures forall i :: 0 <= i < |kw| ==> ParseArgs(fields, dates, kw).value[i] == Converted(fields, dates, kw[i])
    decreases |kw|
  {
    if kw != [] {
      ParseArgsConverts(fields, dates, kw[1..]);
      var out := ParseArgs(fields, dates, kw).value;
      assert forall i :: 0 < i < |kw| ==> kw[i] == kw[1..][i - 1] && out[i] == out[1..][i - 1];
    }
  }

  /** A failing decorator raises the exception of the first designated
      argument that does not parse. */
  lemma {:induction false} ParseArgsFirstError(fields: seq<string>, dates: Dates, kw: Kwargs)
    requires ParseArgs(fields, dates, kw).Err?
    ensures exists i :: (0 <= i < |kw| && kw[i].0 in fields && !Parsable(dates, kw[i].1) &&
                         ParseArgs(fields, dates, kw).error == ArgError(dates, kw[i].1) &&
                         forall j :: 0 <= j < i && kw[j].0 in fields ==> Parsable(dates, kw[j].1))
    decreases |kw|
  {
    if !(kw[0].0 in fields && !Parsable(dates, kw[0].1)) {
      ParseArgsFirstError(fields, dates, kw[1..]);
      var i :| (0 <= i < |kw[1..]| && kw[1..][i].0 in fields && !Parsable(dates, kw[1..][i].1) &&
                ParseArgs(fields, dates, kw[1..]).error == ArgError(dates, kw[1..][i].1) &&
                forall j :: 0 <= j < i && kw[1..][j].0 in fields ==> Parsable(dates, kw[1..][j].1));
      assert forall j :: 0 < j <= i ==> kw[j] == kw[1..][j - 1];
      assert kw[i + 1] == kw[1..][i];
    }
  }

  /** After a successful decorator, looking an argument up gives the
      converted value of the original. */
  lemma {:induction false} LookupParsed(fields: seq<string>, dates: Dates, kw: Kwargs, key: string)
    requires ParseArgs(fields, dates, kw).Ok?
    ensures Lookup(ParseArgs(fields, dates, kw).value, key).Some? <==> Lookup(kw, key).Some?
    ensures Lookup(kw, key).Some? ==>
      Lookup(ParseArgs(fields, dates, kw).value, key).value == Converted(fields, dates, (key, Lookup(kw, key).value)).1
    decreases |kw|
  {
    if kw != [] {
      var rest := ParseArgs(fields, dates, kw[1..]);
      LookupParsed(fields, dates, kw[1..], key);
      var out := [Converted(fields, dates, kw[0])] + rest.value;
      assert out[1..] == rest.value;
    }
  }

  /** The replication keys `validate` admits. */
  const ReplicationKeys: seq<string> := ["date_modified", "id"]

  const InvalidReplicationKey: string := "Client Error - invalid replication_key"
  const InvalidBookmark: string := "Client Error - bookmark must be valid datetime"

  /** `validate(method)` applied to a call's keyword arguments: the
      arguments passed on unchanged, or the client error. */
  function Validate(kw: Kwargs): Result<Kwargs>
  {
    var rk := Lookup(kw, "replication_key");
    var bm := Lookup(kw, "bookmark");
    if rk.Some? && !(rk.value.Text? && rk.value.s in ReplicationKeys) then Err(ClientError(InvalidReplicationKey))
    else if bm.Some? && !bm.value.Moment? then Err(ClientError(InvalidBookmark))
    else Ok(kw)
  }

  /** `validate` passes the arguments on unchanged iff a replication key,
      when given, is one of the two strings and a bookmark, when given, is a
      datetime; the replication key is checked first. */
  lemma ValidateAdmits(kw: Kwargs)
    ensures Validate(kw).Ok? <==>
      (Lookup(kw, "replication_key").Some? ==> Lookup(kw, "replication_key").value in {Text("date_modified"), Text("id")}) &&
      (Lookup(kw, "bookmark").Some? ==> Lookup(kw, "bookmark").value.Moment?)
    ensures Validate(kw).Ok? ==> Validate(kw).value == kw
    ensures Validate(kw).Err? ==>
      Validate(kw).error == ClientError(InvalidReplicationKey) || Validate(kw).error == ClientError(InvalidBookmark)
    ensures Lookup(kw, "replication_key") == Some(Other("date_modified")) ==>
      Validate(kw) == Err(ClientError(InvalidReplicationKey))
  {
  }

  /** The parameters `orders`, `products` and `customers` take. */
  const CallKeys: set<string> := {"replication_key", "bookmark"}

  /** Binding the keyword arguments to `(self, replication_key, bookmark)`:
      an unknown or a missing argument is a TypeError. */
  function BindArgs(kw: Kwargs): Result<Arg>
  {
    if exists i :: 0 <= i < |kw| && kw[i].0 !in CallKeys then Err(TypeError)
    else if Lookup(kw, "replication_key").None? || Lookup(kw, "bookmark").None? then Err(TypeError)
    else Ok(Lookup(kw, "bookmark").value)
  }

  /** The bookmark a decorated entity method works from: the outer
      `parse_date_string_arguments('bookmark')`, then `validate`, then the
      call itself, then `bookmark.isoformat()`. */
  function BookmarkOf(dates: Dates, kw: Kwargs): Result<Datetime>
  {
    match ParseArgs(["bookmark"], dates, kw)
    case Err(e) => Err(e)
    case Ok(parsed) =>
      match Validate(parsed)
      case Err(e) => Err(e)
      case Ok(valid) =>
        match BindArgs(valid)
        case Err(e) => Err(e)
        case Ok(b) => if b.Moment? then Ok(b.t) else Err(AttributeError)
  }

  /** A call the decorated entity methods accept, with bookmark `t`. */
  predicate Accepted(dates: Dates, kw: Kwargs, t: Datetime)
  {
    (forall i :: 0 <= i < |kw| ==> kw[i].0 in CallKeys) &&
    Lookup(kw, "replication_key") in {Some(Text("date_modified")), Some(Text("id"))} &&
    (forall i :: 0 <= i < |kw| && kw[i].0 == "bookmark" ==> Parsable(dates, kw[i].1)) &&
    Lookup(kw, "bookmark").Some? && Lookup(kw, "bookmark").value.Text? &&
    dates.parse(Lookup(kw, "bookmark").value.s) == Some(t)
  }

  /** The decorated methods run iff the arguments are exactly a valid
      replication key and a bookmark string that parses, and then they work
      from the parsed bookmark. */
  lemma BookmarkOfAccepts(dates: Dates, kw: Kwargs, t: Datetime)
    ensures BookmarkOf(dates, kw) == Ok(t) <==> Accepted(dates, kw, t)
  {
    ParseArgsOkIff(["bookmark"], dates, kw);
    var p := ParseArgs(["bookmark"], dates, kw);
    if p.Ok? {
      var parsed := p.value;
      ParseArgsConverts(["bookmark"], dates, kw);
      LookupParsed(["bookmark"], dates, kw, "bookmark");
      LookupParsed(["bookmark"], dates, kw, "replication_key");
      assert Lookup(parsed, "replication_key") == Lookup(kw, "replication_key");
      var bm := Lookup(kw, "bookmark");
      if bm.Some? {
        LookupFound(kw, "bookmark");
        assert Parsable(dates, bm.value);
        assert Lookup(parsed, "bookmark") == Some(Moment(dates.parse(bm.value.s).value));
      }
      assert (exists i :: 0 <= i < |parsed| && parsed[i].0 !in CallKeys) <==>
             (exists i :: 0 <= i < |kw| && kw[i].0 !in CallKeys) by {
        assert forall i :: 0 <= i < |kw| ==> parsed[i].0 == kw[i].0;
      }
    }
  }

  /** A bookmark that is already a datetime never reaches `validate`'s
      datetime check: the outer decorator refuses it as a non-string. */
  lemma DatetimeBookmarkRefused(dates: Dates, t: Datetime, rk: Arg)
    ensures BookmarkOf(dates, [("replication_key", rk), ("bookmark", Moment(t))]) ==
      Err(ClientError("parse_date_string_arguments expects string value." + dates.show(t) + " provided"))
  {
    var kw := [("replication_key", rk), ("bookmark", Moment(t))];
    assert kw[1..] == [("bookmark", Moment(t))];
    assert ParseArgs(["bookmark"], dates, kw[1..]) == Err(ArgError(dates, Moment(t)));
  }

  /** Once the outer decorator has run, a bookmark is a datetime, so the
      only check of `validate` that can still fail is the replication
      key's. */
  lemma ParsedBookmarkIsDatetime(dates: Dates, kw: Kwargs)
    requires ParseArgs(["bookmark"], dates, kw).Ok?
    ensures Validate(ParseArgs(["bookmark"], dates, kw).value) != Err(ClientError(InvalidBookmark))
  {
    ParseArgsOkIff(["bookmark"], dates, kw);
    LookupParsed(["bookmark"], dates, kw, "bookmark");
    var bm := Lookup(kw, "bookmark");
    if bm.Some? {
      LookupFound(kw, "bookmark");
    }
  }

  /** A key that is found is some argument's key. */
  lemma {:induction false} LookupFound(kw: Kwargs, key: string)
    requires Lookup(kw, key).Some?
    ensures exists i :: 0 <= i < |kw| && kw[i] == (key, Lookup(kw, key).value)
    decreases |kw|
  {
    if kw[0].0 != key {
      LookupFound(kw[1..], key);
      var i :| 0 <= i < |kw[1..]| && kw[1..][i] == (key, Lookup(kw, key).value);
      assert kw[i + 1] == kw[1..][i];
    }
  }

  // ---------------------------------------------------------------------
  // Day windows
  // ---------------------------------------------------------------------

  /** A `(start, end)` pair yielded by `iterdates`. */
  datatype Window = Window(start: Instant, end: Instant)

  /** `max(int((utcnow - start_date).days), 1)`: whole days elapsed, floored,
      and at least one. */
  function DayCount(start: Instant, now: Instant): nat
  {
    if (now - start) / Day >= 1 then (now - start) / Day else 1
  }

  /** The `n`-th window: a day from `start_date + timedelta(n)`, its end
      capped at `utcnow`. */
  function DayWindow(start: Instant, now: Instant, n: int): Window
  {
    Window(start + n * Day, Min(start + (n + 1) * Day, now))
  }

  /** The windows `iterdates(start_date)` yields. */
  function Windows(start: Instant, now: Instant): seq<Window>
  {
    seq(DayCount(start, now), n requires 0 <= n => DayWindow(start, now, n))
  }

  /** Consecutive windows meet: each but the last is a whole day and ends
      where the next begins. */
  lemma WindowsContiguous(start: Instant, now: Instant, n: nat)
    requires n + 1 < DayCount(start, now)
    ensures DayWindow(start, now, n).end == DayWindow(start, now, n + 1).start
    ensures DayWindow(start, now, n).end - DayWindow(start, now, n).start == Day
  {
    var d := (now - start) / Day;
    assert (n + 1) * Day <= d * Day <= now - start;
  }

  /** Window starts strictly increase. */
  lemma WindowsIncreasing(start: Instant, now: Instant, n: int, m: int)
    requires n < m
    ensures DayWindow(start, now, n).start < DayWindow(start, now, m).start
  {
    assert m * Day - n * Day == (m - n) * Day;
  }

  /** With at least a day elapsed the cap never applies: the windows cover
      the whole days from `start`, and the part of the last day up to
      `utcnow`, shorter than a day, is left out. */
  lemma WindowsLeaveRemainder(start: Instant, now: Instant)
    requires now - start >= Day
    ensures DayWindow(start, now, DayCount(start, now) - 1).end == start + DayCount(start, now) * Day
    ensures now - DayWindow(start, now, DayCount(start, now) - 1).end == (now - start) % Day
    ensures 0 <= (now - start) % Day < Day
  {
    var d := (now - start) / Day;
    assert d >= 1 && DayCount(start, now) == d;
    assert d * Day + (now - start) % Day == now - start;
  }

  /** With less than a day elapsed there is a single window, from `start`
      to `utcnow`; a bookmark in the future gives a window that ends before
      it starts. */
  lemma OneWindowForLessThanADay(start: Instant, now: Instant)
    requires now - start < Day
    ensures DayCount(start, now) == 1
    ensures DayWindow(start, now, 0) == Window(start, now)
    ensures now < start ==> DayWindow(start, now, 0).end < DayWindow(start, now, 0).start
  {
  }

  /** Three and a half days from midnight give three whole-day windows. */
  lemma ThreeAndAHalfDays(start: Instant)
    ensures Windows(start, start + 3 * Day + Day / 2) ==
      [Window(start, start + Day), Window(start + Day, start + 2 * Day), Window(start + 2 * Day, start + 3 * Day)]
  {
    var now := start + 3 * Day + Day / 2;
    assert (now - start) / Day == 3;
    assert Windows(start, now)[0] == DayWindow(start, now, 0);
    assert Windows(start, now)[1] == DayWindow(start, now, 1);
    assert Windows(start, now)[2] == DayWindow(start, now, 2);
  }

  // ---------------------------------------------------------------------
  // The entity queries
  // ---------------------------------------------------------------------

  /** `orders`: changed since the bookmark, oldest change first. */
  function OrdersQuery(dates: Dates, bookmark: Datetime): Query
  {
    map["min_date_modified" := dates.iso(bookmark), "sort" := "date_modified:asc"]
  }

  /** `products`: changed since the bookmark, ascending by change date. */
  function ProductsQuery(dates: Dates, bookmark: Datetime): Query
  {
    map["date_modified:min" := dates.iso(bookmark), "sort" := "date_modified", "direction" := "asc"]
  }

  /** `customers`, for one window: changed within it. The bounds of a
      window are aware datetimes. */
  function CustomersQuery(dates: Dates, w: Window): Query
  {
    map["min_date_modified" := dates.iso(Datetime(w.start, true)), "max_date_modified" := dates.iso(Datetime(w.end, true))]
  }

  /** `coupons`: `resource`'s default parameters, an empty dict. */
  const CouponsQuery: Query := map[]

  /** None of the queries sets `page` or `limit`, so each page request
      carries the query unchanged. */
  lemma QueriesKeepTheirKeys(dates: Dates, t: Datetime, w: Window)
    ensures OrdersQuery(dates, t) - {"page", "limit"} == OrdersQuery(dates, t)
    ensures ProductsQuery(dates, t) - {"page", "limit"} == ProductsQuery(dates, t)
    ensures CustomersQuery(dates, w) - {"page", "limit"} == CustomersQuery(dates, w)
    ensures CouponsQuery - {"page", "limit"} == CouponsQuery
  {
  }

  /** Every page request of `orders` asks for changes since the bookmark,
      in ascending order of change; those of `products` likewise. */
  lemma OrdersAndProductsFromBookmark(s: Session, rpp: int, storeHash: string, dates: Dates, t: Datetime,
                                      attempts: seq<Attempt>, normalize: string -> Option<string>)
    ensures forall q :: q in Queried(ResourceRun(s, rpp, storeHash, "orders", OrdersQuery(dates, t), attempts, normalize).events) ==>
      q == map["min_date_modified" := dates.iso(t), "sort" := "date_modified:asc"]
    ensures forall q :: q in Queried(ResourceRun(s, rpp, storeHash, "products", ProductsQuery(dates, t), attempts, normalize).events) ==>
      q == map["date_modified:min" := dates.iso(t), "sort" := "date_modified", "direction" := "asc"]
  {
    QueriesKeepTheirKeys(dates, t, Window(t.t, t.t));
    ResourceQueries(s, rpp, storeHash, "orders", OrdersQuery(dates, t), attempts, normalize);
    ResourceQueries(s, rpp, storeHash, "products", ProductsQuery(dates, t), attempts, normalize);
  }

  // ---------------------------------------------------------------------
  // Customers, window by window
  // ---------------------------------------------------------------------

  /** A later part of a run, after the events already produced. */
  function Chain(done: seq<Event>, r: ApiRun): ApiRun
  {
    ApiRun(r.session, r.rpp, done + r.events, r.end)
  }

  /** The `resource('customers', ...)` calls of `customers` for the
      windows in order, `call` giving each window's result from the state
      the previous one left; the generator stops with the first call that
      does not end normally. */
  function CustomersRun(s: Session, rpp: int, windows: seq<Window>, call: (Session, int, Window) -> ApiRun): ApiRun
    decreases |windows|
  {
    if windows == [] then ApiRun(s, rpp, [], Finished(Done))
    else
      var before := CustomersRun(s, rpp, windows[..|windows| - 1], call);
      if before.end != Finished(Done) then before
      else Chain(before.events, call(before.session, before.rpp, windows[|windows| - 1]))
  }

  /** The call `customers` makes for one window. */
  function CustomersCall(storeHash: string, dates: Dates, responses: Window -> seq<Attempt>,
                         normalize: string -> Option<string>): (Session, int, Window) -> ApiRun
  {
    (s: Session, rpp: int, w: Window) =>
      ResourceRun(s, rpp, storeHash, "customers", CustomersQuery(dates, w), responses(w), normalize)
  }

  /** Once a call has not ended normally, later windows change nothing. */
  lemma {:induction false} CustomersRunStops(s: Session, rpp: int, windows: seq<Window>, n: nat,
                                             call: (Session, int, Window) -> ApiRun)
    requires n <= |windows|
    requires CustomersRun(s, rpp, windows[..n], call).end != Finished(Done)
    ensures CustomersRun(s, rpp, windows, call) == CustomersRun(s, rpp, windows[..n], call)
    decreases |windows| - n
  {
    if n < |windows| {
      var m := |windows|;
      assert windows[..m - 1][..n] == windows[..n];
      CustomersRunStops(s, rpp, windows[..m - 1], n, call);
    } else {
      assert windows[..n] == windows;
    }
  }

  /** `idx` places each query in `qs` at a window of `ws` whose query it
      is, the windows never going back. */
  predicate WindowIndex(qs: seq<Query>, dates: Dates, ws: seq<Window>, idx: seq<int>)
  {
    |idx| == |qs| &&
    (forall k :: 0 <= k < |qs| ==> 0 <= idx[k] < |ws| && qs[k] == CustomersQuery(dates, ws[idx[k]])) &&
    (forall k :: 0 < k < |idx| ==> idx[k - 1] <= idx[k])
  }

  /** `qs` moves through the windows `ws` in order: each query is some
      window's query, and never an earlier window's than the one before. */
  ghost predicate InWindowOrder(qs: seq<Query>, dates: Dates, ws: seq<Window>)
  {
    exists idx :: WindowIndex(qs, dates, ws, idx)
  }

  /** One window's queries after an ordered run through the earlier ones. */
  lemma WindowIndexSnoc(a: seq<Query>, b: seq<Query>, dates: Dates, ws: seq<Window>, idx: seq<int>)
    returns (idx': seq<int>)
    requires ws != []
    requires WindowIndex(a, dates, ws[..|ws| - 1], idx)
    requires forall k :: 0 <= k < |b| ==> b[k] == CustomersQuery(dates, ws[|ws| - 1])
    ensures WindowIndex(a + b, dates, ws, idx')
  {
    idx' := idx + seq(|b|, _ => |ws| - 1);
    forall k | 0 <= k < |a + b|
      ensures 0 <= idx'[k] < |ws| && (a + b)[k] == CustomersQuery(dates, ws[idx'[k]])
    {
      if k < |a| {
        assert ws[..|ws| - 1][idx[k]] == ws[idx[k]];
      }
    }
  }

  /** The page requests of `customers`, with the windows' indices. */
  lemma {:induction false} CustomersIndexed(s: Session, rpp: int, storeHash: string, dates: Dates,
                                            windows: seq<Window>, responses: Window -> seq<Attempt>,
                                            normalize: string -> Option<string>)
    returns (idx: seq<int>)
    ensures WindowIndex(Queried(CustomersRun(s, rpp, windows, CustomersCall(storeHash, dates, responses, normalize)).events),
                        dates, windows, idx)
    decreases |windows|
  {
    var call := CustomersCall(storeHash, dates, responses, normalize);
    if windows == [] {
      idx := [];
    } else {
      var m := |windows|;
      var before := CustomersRun(s, rpp, windows[..m - 1], call);
      var prior := CustomersIndexed(s, rpp, storeHash, dates, windows[..m - 1], responses, normalize);
      if before.end != Finished(Done) {
        idx := prior;
        forall k | 0 <= k < |idx| ensures windows[..m - 1][idx[k]] == windows[idx[k]] {
        }
      } else {
        var w := windows[m - 1];
        var last := call(before.session, before.rpp, w);
        ResourceQueries(before.session, before.rpp, storeHash, "customers", CustomersQuery(dates, w), responses(w), normalize);
        QueriesKeepTheirKeys(dates, Datetime(0, true), w);
        QueriedAppend(before.events, last.events);
        forall k | 0 <= k < |Queried(last.events)| ensures Queried(last.events)[k] == CustomersQuery(dates, w) {
          assert Queried(last.events)[k] in Queried(last.events);
        }
        idx := WindowIndexSnoc(Queried(before.events), Queried(last.events), dates, windows, prior);
      }
    }
  }

  /** `customers` queries the windows in order, one after another, each
      page request bounded by its window's `min_date_modified` and
      `max_date_modified`. */
  lemma CustomersInWindowOrder(s: Session, rpp: int, storeHash: string, dates: Dates,
                               windows: seq<Window>, responses: Window -> seq<Attempt>,
                               normalize: string -> Option<string>)
    ensures InWindowOrder(Queried(CustomersRun(s, rpp, windows, CustomersCall(storeHash, dates, responses, normalize)).events),
                          dates, windows)
  {
    var idx := CustomersIndexed(s, rpp, storeHash, dates, windows, responses, normalize);
  }

  /** The rows `customers` yields are those of the earlier windows, then,
      when they all ended normally, those of the last window's call. */
  lemma CustomersEmitWindowByWindow(s: Session, rpp: int, windows: seq<Window>, call: (Session, int, Window) -> ApiRun)
    requires windows != []
    ensures
      var before := CustomersRun(s, rpp, windows[..|windows| - 1], call);
      Emitted(CustomersRun(s, rpp, windows, call).events) ==
        if before.end != Finished(Done) then Emitted(before.events)
        else Emitted(before.events) + Emitted(call(before.session, before.rpp, windows[|windows| - 1]).events)
  {
    var before := CustomersRun(s, rpp, windows[..|windows| - 1], call);
    if before.end == Finished(Done) {
      EmittedAppend(before.events, call(before.session, before.rpp, windows[|windows| - 1]).events);
    }
  }

  // ---------------------------------------------------------------------
  // The client class
  // ---------------------------------------------------------------------

  /** The decorator stack of `orders`, `products` and `customers`, as the
      call runs it. */
  method DecoratedBookmark(dates: Dates, kwargs: Kwargs) returns (r: Result<Datetime>)
    ensures r == BookmarkOf(dates, kwargs)
  {
    var parsed := ParseDateStringArguments(["bookmark"], dates, kwargs);
    if parsed.Err? {
      return Err(parsed.error);
    }
    var valid := Validate(parsed.value);
    if valid.Err? {
      return Err(valid.error);
    }
    var bound := BindArgs(valid.value);
    if bound.Err? {
      return Err(bound.error);
    }
    if !bound.value.Moment? {
      return Err(AttributeError);
    }
    r := Ok(bound.value.t);
  }

  /** Authorisation succeeds iff the `time` request comes back 200 or 204
      and, when it carries the reset header, all four rate-limit headers;
      it leaves one request counted and the record those headers give. */
  lemma AuthorizationOutcome(auth: Response)
    ensures Observe(Session(0, Unknown), auth).1.Ok? <==>
      (auth.status == 200 || auth.status == 204) && (ResetHeader in auth.headers ==> ParseRateLimit(auth.headers).Ok?)
    ensures Observe(Session(0, Unknown), auth).0 == Session(1, NextRateLimit(Unknown, auth.headers))
    ensures Observe(Session(0, Unknown), auth).1.Ok? ==>
      (Observe(Session(0, Unknown), auth).0.rateLimit.Known? <==> ResetHeader in auth.headers)
  {
    ResponseDataClassifies(auth.status, auth.body);
  }

  /** When the authorisation response carried no rate-limit headers, the
      quota is still unknown and `orders` raises before any request. */
  lemma OrdersNeedTheQuota(auth: Response, storeHash: string, q: Query, attempts: seq<Attempt>,
                           normalize: string -> Option<string>)
    requires Observe(Session(0, Unknown), auth).1.Ok? && ResetHeader !in auth.headers
    ensures ResourceRun(Observe(Session(0, Unknown), auth).0, DefaultResultsPerPage, storeHash, "orders", q, attempts, normalize) ==
      ApiRun(Session(1, Unknown), DefaultResultsPerPage, [], Finished(Fatal(TypeError)))
  {
    PrepareClamps(storeHash, "orders", q, DefaultResultsPerPage, Unknown, normalize);
  }

  /** The `for start, end in self.iterdates(bookmark)` loop of `customers`
      on the wrapper `api`. */
  method QueryWindows(api: Bigcommerce, dates: Dates, windows: seq<Window>, responses: Window -> seq<Attempt>,
                      normalize: string -> Option<string>)
    returns (events: seq<Event>, end: RunEnd)
    modifies api
    ensures ApiRun(api.Counters(), api.resultsPerPage, events, end) ==
      CustomersRun(old(api.Counters()), old(api.resultsPerPage), windows, CustomersCall(api.storeHash, dates, responses, normalize))
  {
    ghost var s0 := api.Counters();
    ghost var r0 := api.resultsPerPage;
    ghost var call := CustomersCall(api.storeHash, dates, responses, normalize);
    events := [];
    var i := 0;
    while i < |windows|
      invariant 0 <= i <= |windows|
      invariant ApiRun(api.Counters(), api.resultsPerPage, events, Finished(Done)) == CustomersRun(s0, r0, windows[..i], call)
    {
      assert windows[..i + 1][..i] == windows[..i];
      var evs, e := api.ResourceCall("customers", CustomersQuery(dates, windows[i]), responses(windows[i]), normalize);
      events := events + evs;
      if e != Finished(Done) {
        CustomersRunStops(s0, r0, windows, i + 1, call);
        return events, e;
      }
      i := i + 1;
    }
    assert windows[..i] == windows;
    end := Finished(Done);
  }

  /** `BigCommerce`: the credentials, the clock reading taken at start,
      the authorisation flag and the API wrapper. */
  class BigCommerce {
    const clientId: string
    const accessToken: string
    const storeHash: string
    const utcnow: Instant
    var authorized: bool
    var api: Bigcommerce?

    /** `__init__` before its call to `_reset_session`: the class default
        `authorized = False` and no wrapper yet. */
    constructor(clientId: string, accessToken: string, storeHash: string, utcnow: Instant)
      ensures this.clientId == clientId && this.accessToken == accessToken && this.storeHash == storeHash
      ensures this.utcnow == utcnow
      ensures !authorized && api == null
    {
      this.clientId := clientId;
      this.accessToken := accessToken;
      this.storeHash := storeHash;
      this.utcnow := utcnow;
      authorized := false;
      api := null;
    }

    /** `is_authorized()`. */
    predicate IsAuthorized()
      reads this
    {
      authorized
    }

    /** `_reset_session()`: a new wrapper, authorised by its `time` request;
        on success it replaces the old one and the flag is set; on failure
        the flag is cleared, the old wrapper stays and the exception is
        raised again. */
    method ResetSession(auth: Response) returns (err: Option<Failure>)
      modifies this
      ensures authorized <==> Observe(Session(0, Unknown), auth).1.Ok?
      ensures err == (if authorized then None else Some(Observe(Session(0, Unknown), auth).1.error))
      ensures authorized ==>
        api != null && fresh(api) && api.Counters() == Observe(Session(0, Unknown), auth).0 &&
        api.clientId == clientId && api.accessToken == accessToken && api.storeHash == storeHash &&
        api.resultsPerPage == DefaultResultsPerPage
      ensures !authorized ==> api == old(api)
    {
      var candidate := new Bigcommerce(clientId, accessToken, storeHash);
      var url, r := candidate.ResetSession(auth);
      if r.Err? {
        authorized := false;
        return Some(r.error);
      }
      api := candidate;
      authorized := true;
      err := None;
    }

    /** `iterdates(start_date)`: `utcnow` is aware, so a naive start
        raises a TypeError at `self.utcnow - start_date`, before the first
        window. */
    method IterDates(startDate: Datetime) returns (windows: Result<seq<Window>>)
      ensures !startDate.aware ==> windows == Err(TypeError)
      ensures startDate.aware ==> windows == Ok(Windows(startDate.t, utcnow))
    {
      if !startDate.aware {
        return Err(TypeError);
      }
      var count := (utcnow - startDate.t) / Day;
      if count < 1 {
        count := 1;
      }
      var out: seq<Window> := [];
      var n := 0;
      while n < count
        invariant 0 <= n <= count == DayCount(startDate.t, utcnow)
        invariant out == Windows(startDate.t, utcnow)[..n]
      {
        var start := startDate.t + n * Day;
        var end := startDate.t + (n + 1) * Day;
        out := out + [Window(start, Min(end, utcnow))];
        n := n + 1;
      }
      assert out == Windows(startDate.t, utcnow);
      windows := Ok(out);
    }

    /** `orders(replication_key=..., bookmark=...)`. */
    method Orders(dates: Dates, kwargs: Kwargs, attempts: seq<Attempt>, normalize: string -> Option<string>)
      returns (events: seq<Event>, end: RunEnd)
      modifies api
      ensures match BookmarkOf(dates, kwargs)
        case Err(e) =>
          events == [] && end == Finished(Fatal(e)) && (api != null ==> unchanged(api))
        case Ok(t) =>
          if api == null then events == [] && end == Finished(Fatal(AttributeError))
          else (ApiRun(api.Counters(), api.resultsPerPage, events, end) ==
                ResourceRun(old(api.Counters()), old(api.resultsPerPage), api.storeHash, "orders", OrdersQuery(dates, t),
                            attempts, normalize))
    {
      var b := DecoratedBookmark(dates, kwargs);
      if b.Err? {
        return [], Finished(Fatal(b.error));
      }
      if api == null {
        return [], Finished(Fatal(AttributeError));
      }
      events, end := api.ResourceCall("orders", OrdersQuery(dates, b.value), attempts, normalize);
    }

    /** `products(replication_key=..., bookmark=...)`. */
    method Products(dates: Dates, kwargs: Kwargs, attempts: seq<Attempt>, normalize: string -> Option<string>)
      returns (events: seq<Event>, end: RunEnd)
      modifies api
      ensures match BookmarkOf(dates, kwargs)
        case Err(e) =>
          events == [] && end == Finished(Fatal(e)) && (api != null ==> unchanged(api))
        case Ok(t) =>
          if api == null then events == [] && end == Finished(Fatal(AttributeError))
          else (ApiRun(api.Counters(), api.resultsPerPage, events, end) ==
                ResourceRun(old(api.Counters()), old(api.resultsPerPage), api.storeHash, "products", ProductsQuery(dates, t),
                            attempts, normalize))
    {
      var b := DecoratedBookmark(dates, kwargs);
      if b.Err? {
        return [], Finished(Fatal(b.error));
      }
      if api == null {
        return [], Finished(Fatal(AttributeError));
      }
      events, end := api.ResourceCall("products", ProductsQuery(dates, b.value), attempts, normalize);
    }

    /** `customers(replication_key=..., bookmark=...)`: one `resource` call
        per day window from the bookmark, the store answering each window
        with `responses(window)`. */
    method Customers(dates: Dates, kwargs: Kwargs, responses: Window -> seq<Attempt>,
                     normalize: string -> Option<string>)
      returns (events: seq<Event>, end: RunEnd)
      modifies api
      ensures match BookmarkOf(dates, kwargs)
        case Err(e) =>
          events == [] && end == Finished(Fatal(e)) && (api != null ==> unchanged(api))
        case Ok(t) =>
          if !t.aware then events == [] && end == Finished(Fatal(TypeError)) && (api != null ==> unchanged(api))
          else if api == null then events == [] && end == Finished(Fatal(AttributeError))
          else (ApiRun(api.Counters(), api.resultsPerPage, events, end) ==
                CustomersRun(old(api.Counters()), old(api.resultsPerPage), Windows(t.t, utcnow),
                             CustomersCall(api.storeHash, dates, responses, normalize)))
    {
      var b := DecoratedBookmark(dates, kwargs);
      if b.Err? {
        return [], Finished(Fatal(b.error));
      }
      var windows := IterDates(b.value);
      if windows.Err? {
        return [], Finished(Fatal(windows.error));
      }
      if api == null {
        return [], Finished(Fatal(AttributeError));
      }
      events, end := QueryWindows(api, dates, windows.value, responses, normalize);
    }

    /** `coupons()`: a single unfiltered `resource` call. */
    method Coupons(attempts: seq<Attempt>, normalize: string -> Option<string>) returns (events: seq<Event>, end: RunEnd)
      modifies api
      ensures api == null ==> events == [] && end == Finished(Fatal(AttributeError))
      ensures api != null ==>
        ApiRun(api.Counters(), api.resultsPerPage, events, end) ==
          ResourceRun(old(api.Counters()), old(api.resultsPerPage), api.storeHash, "coupons", CouponsQuery, attempts, normalize)
    {
      if api == null {
        return [], Finished(Fatal(AttributeError));
      }
      events, end := api.ResourceCall("coupons", CouponsQuery, attempts, normalize);
    }
  }
}
