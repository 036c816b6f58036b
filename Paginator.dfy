/** `Bigcommerce.resource` (tap_bigcommerce/bigcommerce.py): the page loop
    with its retry, pause and page-size rules.

    The HTTP exchange is an input: one `Attempt` per pass of the loop gives
    the response to the page request and the response each sub-resource url
    would get. What the loop does is a sequence of `Event`s: the page
    requests, the sleeps (in milliseconds) and the emitted rows. `Step` is
    one pass of the loop and `Run` the loop over the attempts; the methods
    of the class `Bigcommerce` are proved to produce what these functions say. */
module Paginator {
  import opened Common
  import opened JsonValues
  import opened Transforms
  import opened RateLimits

  const BaseUrl: string := "https://api.bigcommerce.com/stores/"
  const DefaultResultsPerPage: int := 50
  /** The pause after a row failed, in milliseconds. */
  const RowErrorSleepMs: int := 10000

  /** An entry of the `endpoints` table, with the defaults `resource` uses
      for a missing key. */
  datatype Endpoint = Endpoint(version: int, path: string, dateFields: set<string>,
                               subResources: int, excludePaths: set<Path>)

  function EndpointFor(name: string): (e: Endpoint)
    ensures name !in {"orders", "customers", "products", "coupons"} ==> e == Endpoint(3, name, {}, 0, {})
    ensures e.subResources > 0 <==> name == "orders"
  {
    if name == "orders" then
      Endpoint(2, "orders", {"date_modified", "date_created", "date_shipped"}, 3,
               {["credit_card_type"], ["products", "configurable_fields"],
                ["products", "fulfillment_source"], ["shipping_addresses", "shipping_quotes"]})
    else if name == "customers" then
      Endpoint(2, "customers", {"date_modified", "date_created"}, 0, {["addresses"]})
    else if name == "products" then
      Endpoint(3, "catalog/products", {}, 0, {})
    else if name == "coupons" then
      Endpoint(2, "coupons", {"date_created", "expires"}, 0, {})
    else
      Endpoint(3, name, {}, 0, {})
  }

  // ---------------------------------------------------------------------
  // make_url
  // ---------------------------------------------------------------------

  function DigitChar(d: int): char
    requires 0 <= d < 10
  {
    "0123456789"[d]
  }

  function NatToString(n: nat): string
  {
    if n < 10 then [DigitChar(n)] else NatToString(n / 10) + [DigitChar(n % 10)]
  }

  /** `str(i)`. */
  function IntToString(i: int): string
  {
    if i < 0 then "-" + NatToString(-i) else NatToString(i)
  }

  /** `base_url.format(version=version)`. */
  function VersionBase(storeHash: string, version: int): string
  {
    BaseUrl + storeHash + "/v" + IntToString(version)
  }

  /** The segments, each preceded by a slash. */
  function Joined(segments: seq<string>): string
  {
    if segments == [] then "" else "/" + segments[0] + Joined(segments[1..])
  }

  lemma {:induction false} JoinedAppend(a: seq<string>, b: seq<string>)
    ensures Joined(a + b) == Joined(a) + Joined(b)
  {
    if a == [] {
      assert a + b == b;
    } else {
      assert (a + b)[1..] == a[1..] + b;
      JoinedAppend(a[1..], b);
    }
  }

  lemma JoinedSnoc(segments: seq<string>, s: string)
    ensures Joined(segments + [s]) == Joined(segments) + "/" + s
  {
    JoinedAppend(segments, [s]);
    assert Joined([s]) == "/" + s by {
      assert [s][1..] == [];
    }
  }

  /** The url `make_url` builds. */
  function UrlFor(storeHash: string, version: int, segments: seq<string>): string
  {
    VersionBase(storeHash, version) + Joined(segments)
  }

  /** The authorisation url of a store. */
  lemma TimeUrl(storeHash: string)
    ensures UrlFor(storeHash, 2, ["time"]) == BaseUrl + storeHash + "/v2/time"
  {
    assert IntToString(2) == "2";
    JoinedSnoc([], "time");
    assert [] + ["time"] == ["time"];
  }

  // ---------------------------------------------------------------------
  // Events and inputs
  // ---------------------------------------------------------------------

  /** Query parameters: only strings are passed by the callers. */
  type Query = map<string, string>

  /** What the loop does, in order. A page request carries the caller's
      parameters with `page` and `limit` set by the loop. */
  datatype Event =
    | Fetch(url: string, params: Query, page: int, limit: int)
    | Sleep(ms: int)
    | Emit(row: Json)

  /** The response to one page request, and the response each sub-resource
      url dispatched for that page would get. */
  datatype Attempt = Attempt(response: Response, sub: Json -> Response)

  /** Awaiting the handle of a sub-resource fetch of `u`. */
  function SubGet(a: Attempt): Json -> Result<Json>
  {
    u => HookResult(a.sub(u))
  }

  /** The page numbers requested, in order. */
  function Requests(evs: seq<Event>): seq<int>
  {
    if evs == [] then [] else (if evs[0].Fetch? then [evs[0].page] else []) + Requests(evs[1..])
  }

  /** The rows emitted, in order. */
  function Emitted(evs: seq<Event>): seq<Json>
  {
    if evs == [] then [] else (if evs[0].Emit? then [evs[0].row] else []) + Emitted(evs[1..])
  }

  function Emits(rows: seq<Json>): seq<Event>
  {
    if rows == [] then [] else [Emit(rows[0])] + Emits(rows[1..])
  }

  /** The parameters of the page requests, in order. */
  function Queried(evs: seq<Event>): seq<Query>
  {
    if evs == [] then [] else (if evs[0].Fetch? then [evs[0].params] else []) + Queried(evs[1..])
  }

  lemma SingleEvent(e: Event)
    ensures Requests([e]) == (if e.Fetch? then [e.page] else [])
    ensures Emitted([e]) == (if e.Emit? then [e.row] else [])
  {
    assert [e][1..] == [];
  }

  lemma {:induction false} RequestsAppend(a: seq<Event>, b: seq<Event>)
    ensures Requests(a + b) == Requests(a) + Requests(b)
  {
    if a == [] {
      assert a + b == b;
    } else {
      calc {
        Requests(a + b);
        == { assert (a + b)[0] == a[0]; assert (a + b)[1..] == a[1..] + b; }
        (if a[0].Fetch? then [a[0].page] else []) + Requests(a[1..] + b);
        == { RequestsAppend(a[1..], b); }
        (if a[0].Fetch? then [a[0].page] else []) + (Requests(a[1..]) + Requests(b));
      }
    }
  }

  lemma {:induction false} EmittedAppend(a: seq<Event>, b: seq<Event>)
    ensures Emitted(a + b) == Emitted(a) + Emitted(b)
  {
    if a == [] {
      assert a + b == b;
    } else {
      calc {
        Emitted(a + b);
        == { assert (a + b)[0] == a[0]; assert (a + b)[1..] == a[1..] + b; }
        (if a[0].Emit? then [a[0].row] else []) + Emitted(a[1..] + b);
        == { EmittedAppend(a[1..], b); }
        (if a[0].Emit? then [a[0].row] else []) + (Emitted(a[1..]) + Emitted(b));
      }
    }
  }

  lemma {:induction false} EmitsOnlyEmit(rows: seq<Json>)
    ensures Requests(Emits(rows)) == []
    ensures Emitted(Emits(rows)) == rows
  {
    if rows != [] {
      EmitsOnlyEmit(rows[1..]);
    }
  }

  // ---------------------------------------------------------------------
  // One pass of the loop
  // ---------------------------------------------------------------------

  /** What `resource` fixes before its loop. */
  datatype Config = Config(url: string, params: Query, endpoint: Endpoint, rpp: int, need: int,
                           normalize: string -> Option<string>)

  /** `resource`'s preparation: the endpoint's url, the page size clamped
      when the endpoint has sub-resources (a TypeError while the quota is
      still unknown), and the requests one page needs. */
  function Prepare(storeHash: string, name: string, params: Query, rpp: int, rl: RateLimit,
                   normalize: string -> Option<string>): Result<Config>
  {
    var ep := EndpointFor(name);
    if ep.subResources > 0 && rl.Unknown? then Err(TypeError)
    else
      var size := if ep.subResources > 0 then SafePageSize(rpp, rl.requestsQuota, ep.subResources) else rpp;
      Ok(Config(UrlFor(storeHash, ep.version, [ep.path]), params, ep, size, size * ep.subResources, normalize))
  }

  lemma PrepareClamps(storeHash: string, name: string, params: Query, rpp: int, rl: RateLimit,
                      normalize: string -> Option<string>)
    ensures Prepare(storeHash, name, params, rpp, rl, normalize).Err? <==> name == "orders" && rl.Unknown?
    ensures Prepare(storeHash, name, params, rpp, rl, normalize).Ok? ==>
      var cfg := Prepare(storeHash, name, params, rpp, rl, normalize).value;
      cfg.rpp <= rpp && cfg.need == cfg.rpp * EndpointFor(name).subResources &&
      cfg.url == UrlFor(storeHash, EndpointFor(name).version, [EndpointFor(name).path]) &&
      (name != "orders" ==> cfg.rpp == rpp && cfg.need == 0)
  {
    var ep := EndpointFor(name);
    if ep.subResources > 0 && rl.Known? {
      SafePageSizeBounds(rpp, rl.requestsQuota, ep.subResources);
    }
  }

  /** The row shorthand used by the loop. */
  function Process(row: Json, get: Json -> Result<Json>, cfg: Config): Result<Json>
  {
    ProcessRow(row, get, cfg.endpoint.excludePaths, cfg.endpoint.dateFields, cfg.normalize)
  }

  /** How the emission of a page ended. */
  datatype EmitEnd = AllEmitted | RateLimited | RowFailed(error: Failure)

  datatype Emission = Emission(rows: seq<Json>, end: EmitEnd)

  /** The processing of one row by the generator: its links resolved, the
      excluded paths dropped, its dates rewritten. */
  function Processor(get: Json -> Result<Json>, cfg: Config): Json -> Result<Json>
  {
    row => Process(row, get, cfg)
  }

  /** The `for row in data: yield ...` loop: rows are processed in order
      until one raises. */
  function EmitPage(rows: seq<Json>, process: Json -> Result<Json>): Emission
  {
    if rows == [] then Emission([], AllEmitted)
    else
      match process(rows[0])
      case Err(e) => Emission([], if e == RateLimitExceeded then RateLimited else RowFailed(e))
      case Ok(r) =>
        var rest := EmitPage(rows[1..], process);
        Emission([r] + rest.rows, rest.end)
  }

  /** The emitted rows are the processed prefix of the page; the emission
      ends early exactly at the first row that raised, and with which
      exception. */
  lemma {:induction false} EmitPageIsProcessedPrefix(rows: seq<Json>, process: Json -> Result<Json>)
    ensures |EmitPage(rows, process).rows| <= |rows|
    ensures forall k :: 0 <= k < |EmitPage(rows, process).rows| ==>
      process(rows[k]) == Ok(EmitPage(rows, process).rows[k])
    ensures EmitPage(rows, process).end == AllEmitted <==> |EmitPage(rows, process).rows| == |rows|
    ensures EmitPage(rows, process).end == RateLimited ==>
      process(rows[|EmitPage(rows, process).rows|]) == Err(RateLimitExceeded)
    ensures EmitPage(rows, process).end.RowFailed? ==>
      EmitPage(rows, process).end.error != RateLimitExceeded &&
      process(rows[|EmitPage(rows, process).rows|]) == Err(EmitPage(rows, process).end.error)
  {
    if rows != [] && process(rows[0]).Ok? {
      EmitPageIsProcessedPrefix(rows[1..], process);
      var rest := EmitPage(rows[1..], process);
      forall k | 0 < k <= |rest.rows| ensures rows[k] == rows[1..][k - 1] { }
    }
  }

  /** When no row raises, the whole page is emitted, each row processed. */
  lemma {:induction false} EmitPageAllRowsOk(rows: seq<Json>, process: Json -> Result<Json>)
    requires forall k :: 0 <= k < |rows| ==> process(rows[k]) == Ok(rows[k])
    ensures EmitPage(rows, process) == Emission(rows, AllEmitted)
  {
    if rows != [] {
      assert forall k :: 0 <= k < |rows[1..]| ==> rows[1..][k] == rows[k + 1];
      EmitPageAllRowsOk(rows[1..], process);
      assert rows == [rows[0]] + rows[1..];
    }
  }

  /** `time.sleep(delay + 1)` after a 429, with `delay` the window in
      seconds: a TypeError while the window is still unknown. */
  function RetryDelay(rl: RateLimit): Result<int>
  {
    if rl.Unknown? then Err(TypeError) else Ok(rl.windowSizeMs + 1000)
  }

  /** What the loop does next. */
  datatype Outcome = Done | Fatal(error: Failure)
  datatype Control = Retry | Advance | Stop(outcome: Outcome)

  datatype StepResult = StepResult(session: Session, events: seq<Event>, next: Control)

  /** The 429 handler: sleep, then the same page again. */
  function RetryAfter(s: Session, evs: seq<Event>): StepResult
  {
    match RetryDelay(s.rateLimit)
    case Err(e) => StepResult(s, evs, Stop(Fatal(e)))
    case Ok(d) => StepResult(s, evs + [Sleep(d)], Retry)
  }

  /** `if len(data) < self.results_per_page: break`. */
  function AfterPage(count: int, rpp: int): Control
  {
    if count < rpp then Stop(Done) else Advance
  }

  /** `data` of a page: the body itself for version 2, its 'data' entry
      (default `[]`) for version 3, where a body that is not a dict has no
      `.get`. */
  function PageData(body: Json, version: int): Result<Json>
  {
    if version == 2 then Ok(body)
    else if body.Obj? then Ok(match Get(body.fields, "data") case None => Arr([]) case Some(d) => d)
    else Err(AttributeError)
  }

  /** `for row in data`, as Python iterates: a list gives its items, a dict
      its keys and a string its characters, each as a string; any other
      value is not iterable. */
  function Iterated(data: Json): Result<seq<Json>>
  {
    match data
    case Arr(items) => Ok(items)
    case Obj(fs) => Ok(seq(|fs|, k requires 0 <= k < |fs| => Str(fs[k].key)))
    case Str(s) => Ok(seq(|s|, k requires 0 <= k < |s| => Str([s[k]])))
    case _ => Err(TypeError)
  }

  /** `len(data)`. */
  function Length(data: Json): Result<nat>
  {
    match data
    case Arr(items) => Ok(|items|)
    case Obj(fs) => Ok(|fs|)
    case Str(s) => Ok(|s|)
    case _ => Err(TypeError)
  }

  /** What can be iterated has a length, and it is the number of rows the
      iteration gives. */
  lemma IteratedLength(data: Json)
    ensures Iterated(data).Ok? <==> Length(data).Ok?
    ensures Iterated(data).Ok? ==> |Iterated(data).value| == Length(data).value
    ensures Iterated(data).Err? ==> Iterated(data).error == TypeError && Length(data).error == TypeError
  {
  }

  /** The `try: for row in data: yield ...` block: the rows are emitted
      until one raises; a `data` that cannot be iterated raises at once, and
      the handler treats that like a failed row. */
  function EmitData(data: Json, process: Json -> Result<Json>): Emission
  {
    match Iterated(data)
    case Err(e) => Emission([], RowFailed(e))
    case Ok(rows) => EmitPage(rows, process)
  }

  /** The break test after the block: `len(data)` raises for a `data`
      without a length. */
  function AfterLength(count: Result<nat>, rpp: int): Control
  {
    match count
    case Err(e) => Stop(Fatal(e))
    case Ok(n) => AfterPage(n, rpp)
  }

  /** The page request of pass `page`. */
  function PageFetch(cfg: Config, page: int): Event
  {
    Fetch(cfg.url, cfg.params - {"page", "limit"}, page, cfg.rpp)
  }

  /** The end of a pass whose rows were unpacked: the emitted rows, then
      the 429 handler, the pause after a failed row, or the break test. */
  function FinishPass(s: Session, head: seq<Event>, em: Emission, count: Result<nat>, rpp: int): StepResult
  {
    var emitted := head + Emits(em.rows);
    match em.end
    case RateLimited => RetryAfter(s, emitted)
    case RowFailed(_) => StepResult(s, emitted + [Sleep(RowErrorSleepMs)], AfterLength(count, rpp))
    case AllEmitted => StepResult(s, emitted, AfterLength(count, rpp))
  }

  /** What a pass makes of a page body: its `data`, the unpacking of the
      whole of it and the emission of its rows, each only when the one
      before succeeded. */
  datatype PageWork = PageWork(data: Result<Json>, unpacked: Option<Json>, emission: Emission)

  function Work(body: Json, a: Attempt, cfg: Config): PageWork
  {
    var data := PageData(body, cfg.endpoint.version);
    var unpacked := if data.Ok? then Unpack(data.value, cfg.endpoint.excludePaths, []) else None;
    var em := if unpacked.Some? then EmitData(unpacked.value, Processor(SubGet(a), cfg)) else Emission([], AllEmitted);
    PageWork(data, unpacked, em)
  }

  /** The pass got as far as emitting rows. */
  predicate Reached(w: PageWork)
  {
    w.data.Ok? && w.unpacked.Some?
  }

  /** The rows a pass emits. */
  function FetchedRows(w: PageWork): seq<Json>
  {
    if Reached(w) then w.emission.rows else []
  }

  /** The events of a pass begin with the page request and the pause, if
      one is due. */
  function PassHead(s1: Session, cfg: Config, req: Event): seq<Event>
  {
    [req] + (if ShouldPause(s1.rateLimit, cfg.need) then [Sleep(s1.rateLimit.msUntilReset)] else [])
  }

  /** The rest of a pass whose page request succeeded: the courtesy pause,
      then the page's rows, their unpacking and their emission. */
  function AfterFetch(s1: Session, cfg: Config, req: Event, w: PageWork): StepResult
  {
    var paused := ShouldPause(s1.rateLimit, cfg.need);
    var s2 := if paused then Session(0, s1.rateLimit) else s1;
    var head := PassHead(s1, cfg, req);
    if w.data.Err? then StepResult(s2, head, Stop(Fatal(w.data.error)))
    else if w.unpacked.None? then StepResult(s2, head, Stop(Fatal(KeyError("url"))))
    else FinishPass(s2, head, w.emission, Length(w.unpacked.value), cfg.rpp)
  }

  /** One pass of the `while True` loop, for page number `page`. */
  function Step(s: Session, a: Attempt, cfg: Config, page: int): StepResult
  {
    var req := PageFetch(cfg, page);
    var observed := Observe(s, a.response);
    match observed.1
    case Err(e) =>
      if e == RateLimitExceeded then RetryAfter(observed.0, [req]) else StepResult(observed.0, [req], Stop(Fatal(e)))
    case Ok(body) => AfterFetch(observed.0, cfg, req, Work(body, a, cfg))
  }

  /** The rows a pass emits, from the response to its page request. */
  function PassRows(s: Session, a: Attempt, cfg: Config): seq<Json>
  {
    match Observe(s, a.response).1
    case Err(_) => []
    case Ok(body) => FetchedRows(Work(body, a, cfg))
  }

  lemma RetryAfterEvents(s: Session, evs: seq<Event>)
    ensures Requests(RetryAfter(s, evs).events) == Requests(evs)
    ensures Emitted(RetryAfter(s, evs).events) == Emitted(evs)
    ensures RetryAfter(s, evs).next == Retry <==> s.rateLimit.Known?
    ensures RetryAfter(s, evs).next == Retry ==>
      RetryAfter(s, evs) == StepResult(s, evs + [Sleep(s.rateLimit.windowSizeMs + 1000)], Retry)
    ensures RetryAfter(s, evs).next != Retry ==> RetryAfter(s, evs) == StepResult(s, evs, Stop(Fatal(TypeError)))
  {
    match RetryDelay(s.rateLimit)
    case Ok(d) =>
      SingleEvent(Sleep(d));
      RequestsAppend(evs, [Sleep(d)]);
      EmittedAppend(evs, [Sleep(d)]);
    case Err(_) =>
  }

  lemma FinishPassEvents(s: Session, head: seq<Event>, em: Emission, count: Result<nat>, rpp: int)
    ensures |FinishPass(s, head, em, count, rpp).events| >= |head|
    ensures FinishPass(s, head, em, count, rpp).events[..|head|] == head
    ensures Requests(FinishPass(s, head, em, count, rpp).events) == Requests(head)
    ensures Emitted(FinishPass(s, head, em, count, rpp).events) == Emitted(head) + em.rows
  {
    var emitted := head + Emits(em.rows);
    EmitsOnlyEmit(em.rows);
    RequestsAppend(head, Emits(em.rows));
    EmittedAppend(head, Emits(em.rows));
    match em.end
    case RateLimited =>
      RetryAfterEvents(s, emitted);
    case RowFailed(_) =>
      SingleEvent(Sleep(RowErrorSleepMs));
      RequestsAppend(emitted, [Sleep(RowErrorSleepMs)]);
      EmittedAppend(emitted, [Sleep(RowErrorSleepMs)]);
    case AllEmitted =>
  }

  lemma PassHeadEvents(s1: Session, cfg: Config, req: Event)
    requires req.Fetch?
    ensures Requests(PassHead(s1, cfg, req)) == [req.page]
    ensures Emitted(PassHead(s1, cfg, req)) == []
  {
    var pause: seq<Event> := if ShouldPause(s1.rateLimit, cfg.need) then [Sleep(s1.rateLimit.msUntilReset)] else [];
    SingleEvent(req);
    if pause != [] {
      SingleEvent(pause[0]);
      assert pause == [pause[0]];
    }
    RequestsAppend([req], pause);
    EmittedAppend([req], pause);
  }

  lemma AfterFetchEvents(s1: Session, cfg: Config, req: Event, w: PageWork)
    requires req.Fetch?
    ensures |AfterFetch(s1, cfg, req, w).events| >= |PassHead(s1, cfg, req)|
    ensures AfterFetch(s1, cfg, req, w).events[..|PassHead(s1, cfg, req)|] == PassHead(s1, cfg, req)
    ensures Requests(AfterFetch(s1, cfg, req, w).events) == [req.page]
    ensures Emitted(AfterFetch(s1, cfg, req, w).events) == FetchedRows(w)
  {
    var head := PassHead(s1, cfg, req);
    var s2 := if ShouldPause(s1.rateLimit, cfg.need) then Session(0, s1.rateLimit) else s1;
    PassHeadEvents(s1, cfg, req);
    if Reached(w) {
      FinishPassEvents(s2, head, w.emission, Length(w.unpacked.value), cfg.rpp);
    }
  }

  /** How a pass that fetched its page ends: a body without a `data`, or a
      resource link without a url, is fatal; a 429 on a row retries the
      page iff the window is known, and then after sleeping the window and
      a second; a failed row is followed by the ten-second sleep; otherwise
      the break test on `len(data)` decides. */
  lemma AfterFetchControl(s1: Session, cfg: Config, req: Event, w: PageWork)
    ensures w.data.Err? ==> AfterFetch(s1, cfg, req, w).next == Stop(Fatal(w.data.error))
    ensures w.data.Ok? && w.unpacked.None? ==> AfterFetch(s1, cfg, req, w).next == Stop(Fatal(KeyError("url")))
    ensures Reached(w) && w.emission.end == RateLimited ==>
      (AfterFetch(s1, cfg, req, w).next == Retry <==> s1.rateLimit.Known?)
    ensures Reached(w) && w.emission.end != RateLimited ==>
      AfterFetch(s1, cfg, req, w).next == AfterLength(Length(w.unpacked.value), cfg.rpp)
    ensures Reached(w) && w.emission.end.RowFailed? ==>
      AfterFetch(s1, cfg, req, w).events ==
        PassHead(s1, cfg, req) + Emits(w.emission.rows) + [Sleep(RowErrorSleepMs)]
    ensures AfterFetch(s1, cfg, req, w).next == Retry ==>
      AfterFetch(s1, cfg, req, w).session.rateLimit.Known? &&
      AfterFetch(s1, cfg, req, w).events[|AfterFetch(s1, cfg, req, w).events| - 1] ==
        Sleep(AfterFetch(s1, cfg, req, w).session.rateLimit.windowSizeMs + 1000)
  {
    var s2 := if ShouldPause(s1.rateLimit, cfg.need) then Session(0, s1.rateLimit) else s1;
    if Reached(w) {
      RetryAfterEvents(s2, PassHead(s1, cfg, req) + Emits(w.emission.rows));
    }
  }

  /** After a page request that succeeded, the request counter restarts iff
      fewer than one request would remain for the page's sub-requests; the
      record itself is kept. */
  lemma AfterFetchPauses(s1: Session, cfg: Config, req: Event, w: PageWork)
    ensures AfterFetch(s1, cfg, req, w).session ==
      (if ShouldPause(s1.rateLimit, cfg.need) then Session(0, s1.rateLimit) else s1)
  {
    var s2 := if ShouldPause(s1.rateLimit, cfg.need) then Session(0, s1.rateLimit) else s1;
    if Reached(w) {
      RetryAfterEvents(s2, PassHead(s1, cfg, req) + Emits(w.emission.rows));
    }
  }

  /** Unpacking keeps the kind of `data`: a list page keeps its number of
      rows, and a `data` without a length reaches the loop unchanged, where
      the iteration raises a TypeError at once. */
  lemma WorkLength(body: Json, a: Attempt, cfg: Config)
    ensures var w := Work(body, a, cfg);
      Reached(w) && w.data.value.Arr? ==> Length(w.unpacked.value) == Ok(|w.data.value.items|)
    ensures var w := Work(body, a, cfg);
      w.data.Ok? && Length(w.data.value).Err? ==>
        w.unpacked == Some(w.data.value) && w.emission == Emission([], RowFailed(TypeError))
  {
    var data := PageData(body, cfg.endpoint.version);
    if data.Ok? && data.value.Arr? && UnpackItems(data.value.items, cfg.endpoint.excludePaths, []).Some? {
      UnpackItemsLength(data.value.items, cfg.endpoint.excludePaths, []);
    }
  }

  /** A dict or a string is iterated whole: every key, or every character,
      is a string row that comes out of the processing as it went in. */
  lemma EmitKeysOrCharacters(data: Json, get: Json -> Result<Json>, cfg: Config)
    requires data.Obj? || data.Str?
    ensures EmitData(data, Processor(get, cfg)) == Emission(Iterated(data).value, AllEmitted)
    ensures |Iterated(data).value| == Length(data).value
  {
    var rows := Iterated(data).value;
    forall k | 0 <= k < |rows| ensures Processor(get, cfg)(rows[k]) == Ok(rows[k]) {
      assert rows[k].Str?;
    }
    EmitPageAllRowsOk(rows, Processor(get, cfg));
  }

  /** Every pass requests exactly one page, first, with the loop's page
      number and page size, and emits exactly the rows of `PassRows`. */
  lemma StepEvents(s: Session, a: Attempt, cfg: Config, page: int)
    ensures |Step(s, a, cfg, page).events| > 0 && Step(s, a, cfg, page).events[0] == PageFetch(cfg, page)
    ensures Requests(Step(s, a, cfg, page).events) == [page]
    ensures Emitted(Step(s, a, cfg, page).events) == PassRows(s, a, cfg)
  {
    var req := PageFetch(cfg, page);
    var observed := Observe(s, a.response);
    SingleEvent(req);
    match observed.1
    case Err(e) =>
      RetryAfterEvents(observed.0, [req]);
    case Ok(body) =>
      AfterFetchEvents(observed.0, cfg, req, Work(body, a, cfg));
  }

  /** A 429 on the page request retries the page iff the window is known,
      after sleeping the window and a second; any other failure of the
      page request is fatal. */
  lemma StepOnFailedRequest(s: Session, a: Attempt, cfg: Config, page: int)
    requires Observe(s, a.response).1.Err?
    ensures Observe(s, a.response).1.error == RateLimitExceeded ==>
      Step(s, a, cfg, page) == RetryAfter(Observe(s, a.response).0, [PageFetch(cfg, page)])
    ensures Observe(s, a.response).1.error == RateLimitExceeded ==>
      (Step(s, a, cfg, page).next == Retry <==> Observe(s, a.response).0.rateLimit.Known?)
    ensures Observe(s, a.response).1.error != RateLimitExceeded ==>
      Step(s, a, cfg, page).next == Stop(Fatal(Observe(s, a.response).1.error))
  {
    RetryAfterEvents(Observe(s, a.response).0, [PageFetch(cfg, page)]);
  }

  /** A pass retries its page only after sleeping the window and a second,
      with the window known. */
  lemma StepRetrySleeps(s: Session, a: Attempt, cfg: Config, page: int)
    ensures Step(s, a, cfg, page).next == Retry ==>
      Step(s, a, cfg, page).session.rateLimit.Known? &&
      Step(s, a, cfg, page).events[|Step(s, a, cfg, page).events| - 1] ==
        Sleep(Step(s, a, cfg, page).session.rateLimit.windowSizeMs + 1000)
  {
    var observed := Observe(s, a.response);
    match observed.1
    case Err(e) =>
      RetryAfterEvents(observed.0, [PageFetch(cfg, page)]);
    case Ok(body) =>
      AfterFetchControl(observed.0, cfg, PageFetch(cfg, page), Work(body, a, cfg));
  }

  /** A fetched list page ends the loop iff it is short, whether it was
      emitted whole or up to a failed row; a body without a `data` is fatal;
      a `data` that cannot be iterated (a number, a boolean, None) emits
      nothing, sleeps the ten seconds of a failed row, and then `len(data)`
      raises a TypeError. */
  lemma StepOnFetchedPage(s: Session, a: Attempt, cfg: Config, page: int)
    requires Observe(s, a.response).1.Ok?
    ensures var data := PageData(Observe(s, a.response).1.value, cfg.endpoint.version);
      data.Err? ==> Step(s, a, cfg, page).next == Stop(Fatal(data.error))
    ensures var w := Work(Observe(s, a.response).1.value, a, cfg);
      Reached(w) && w.data.value.Arr? && w.emission.end != RateLimited ==>
        (Step(s, a, cfg, page).next == Stop(Done) <==> |w.data.value.items| < cfg.rpp)
    ensures var data := PageData(Observe(s, a.response).1.value, cfg.endpoint.version);
      data.Ok? && Length(data.value).Err? ==>
        Step(s, a, cfg, page).next == Stop(Fatal(TypeError)) &&
        Step(s, a, cfg, page).events ==
          PassHead(Observe(s, a.response).0, cfg, PageFetch(cfg, page)) + [Sleep(RowErrorSleepMs)]
  {
    var observed := Observe(s, a.response);
    var w := Work(observed.1.value, a, cfg);
    AfterFetchControl(observed.0, cfg, PageFetch(cfg, page), w);
    WorkLength(observed.1.value, a, cfg);
    assert Emits([]) == [];
  }

  /** A `data` that is a dict or a string is iterated as Python iterates
      it: all its keys, or all its characters, are emitted as rows, and the
      break test counts them. */
  lemma StepOnKeysOrCharacters(s: Session, a: Attempt, cfg: Config, page: int)
    requires Observe(s, a.response).1.Ok?
    ensures var w := Work(Observe(s, a.response).1.value, a, cfg);
      Reached(w) && (w.unpacked.value.Obj? || w.unpacked.value.Str?) ==>
        Emitted(Step(s, a, cfg, page).events) == Iterated(w.unpacked.value).value &&
        Step(s, a, cfg, page).next == AfterPage(|Iterated(w.unpacked.value).value|, cfg.rpp)
  {
    var observed := Observe(s, a.response);
    var w := Work(observed.1.value, a, cfg);
    if Reached(w) && (w.unpacked.value.Obj? || w.unpacked.value.Str?) {
      EmitKeysOrCharacters(w.unpacked.value, SubGet(a), cfg);
      AfterFetchControl(observed.0, cfg, PageFetch(cfg, page), w);
      StepEvents(s, a, cfg, page);
    }
  }

  lemma {:induction false} UnpackItemsLength(items: seq<Json>, exclude: set<Path>, parent: Path)
    requires UnpackItems(items, exclude, parent).Some?
    ensures |UnpackItems(items, exclude, parent).value| == |items|
  {
    if items != [] {
      UnpackItemsLength(items[1..], exclude, parent);
    }
  }

  /** The courtesy pause, after a page request that succeeded: the request
      counter restarts iff fewer than one request would remain for the
      page's sub-requests, and the sleep, second event of the pass, is the
      time until the window resets. */
  lemma StepPauses(s: Session, a: Attempt, cfg: Config, page: int)
    requires Observe(s, a.response).1.Ok?
    ensures Step(s, a, cfg, page).session.requestCount == 0 <==> ShouldPause(Observe(s, a.response).0.rateLimit, cfg.need)
    ensures Step(s, a, cfg, page).session.rateLimit == Observe(s, a.response).0.rateLimit
    ensures ShouldPause(Observe(s, a.response).0.rateLimit, cfg.need) ==>
      |Step(s, a, cfg, page).events| >= 2 &&
      Step(s, a, cfg, page).events[1] == Sleep(Observe(s, a.response).0.rateLimit.msUntilReset)
  {
    var observed := Observe(s, a.response);
    var req := PageFetch(cfg, page);
    var w := Work(observed.1.value, a, cfg);
    AfterFetchPauses(observed.0, cfg, req, w);
    AfterFetchEvents(observed.0, cfg, req, w);
    var st := AfterFetch(observed.0, cfg, req, w);
    if ShouldPause(observed.0.rateLimit, cfg.need) {
      assert st.events[..2] == PassHead(observed.0, cfg, req);
      assert st.events[1] == st.events[..2][1];
    }
  }

  // ---------------------------------------------------------------------
  // The loop
  // ---------------------------------------------------------------------

  /** How the loop stopped; `Exhausted` when the attempts ran out first (the
      source would go on requesting). */
  datatype RunEnd = Finished(outcome: Outcome) | Exhausted

  datatype RunResult = RunResult(session: Session, events: seq<Event>, end: RunEnd)

  function Prepend(evs: seq<Event>, r: RunResult): RunResult
  {
    RunResult(r.session, evs + r.events, r.end)
  }

  /** The `while True` loop from the page after `page`: a retry keeps the
      page number, an advance increments it. */
  function Run(s: Session, attempts: seq<Attempt>, cfg: Config, page: int): RunResult
    decreases |attempts|
  {
    if attempts == [] then RunResult(s, [], Exhausted)
    else
      var st := Step(s, attempts[0], cfg, page + 1);
      match st.next
      case Stop(o) => RunResult(st.session, st.events, Finished(o))
      case Retry => Prepend(st.events, Run(st.session, attempts[1..], cfg, page))
      case Advance => Prepend(st.events, Run(st.session, attempts[1..], cfg, page + 1))
  }

  /** One unfolding of the loop, in terms of the pass's result. */
  lemma RunStep(s: Session, attempts: seq<Attempt>, cfg: Config, page: int, st: StepResult)
    requires attempts != [] && st == Step(s, attempts[0], cfg, page + 1)
    ensures st.next.Stop? ==> Run(s, attempts, cfg, page) == RunResult(st.session, st.events, Finished(st.next.outcome))
    ensures st.next == Retry ==> Run(s, attempts, cfg, page) == Prepend(st.events, Run(st.session, attempts[1..], cfg, page))
    ensures st.next == Advance ==> Run(s, attempts, cfg, page) == Prepend(st.events, Run(st.session, attempts[1..], cfg, page + 1))
  {
  }

  lemma PrependTwice(a: seq<Event>, b: seq<Event>, r: RunResult)
    ensures Prepend(a, Prepend(b, r)) == Prepend(a + b, r)
  {
    assert a + (b + r.events) == (a + b) + r.events;
  }

  /** A whole `resource(name, params)` call on the instance's state: the
      counters, the page size, the events and how it ended. */
  datatype ApiRun = ApiRun(session: Session, rpp: int, events: seq<Event>, end: RunEnd)

  function ResourceRun(s: Session, rpp: int, storeHash: string, name: string, params: Query,
                       attempts: seq<Attempt>, normalize: string -> Option<string>): ApiRun
  {
    match Prepare(storeHash, name, params, rpp, s.rateLimit, normalize)
    case Err(e) => ApiRun(s, rpp, [], Finished(Fatal(e)))
    case Ok(cfg) =>
      var r := Run(s, attempts, cfg, 0);
      ApiRun(r.session, cfg.rpp, r.events, r.end)
  }

  /** Requested page numbers start at the next page and never skip or go
      back. */
  predicate PagesProgress(pages: seq<int>, first: int)
  {
    (|pages| > 0 ==> pages[0] == first) &&
    forall k :: 0 < k < |pages| ==> pages[k] == pages[k - 1] || pages[k] == pages[k - 1] + 1
  }

  lemma {:induction false} RunPagesProgress(s: Session, attempts: seq<Attempt>, cfg: Config, page: int)
    ensures PagesProgress(Requests(Run(s, attempts, cfg, page).events), page + 1)
    ensures |Requests(Run(s, attempts, cfg, page).events)| <= |attempts|
    decreases |attempts|
  {
    if attempts != [] {
      var st := Step(s, attempts[0], cfg, page + 1);
      StepEvents(s, attempts[0], cfg, page + 1);
      if !st.next.Stop? {
        var p' := if st.next == Retry then page else page + 1;
        var rest := Run(st.session, attempts[1..], cfg, p');
        RunPagesProgress(st.session, attempts[1..], cfg, p');
        RequestsAppend(st.events, rest.events);
        assert Requests(Run(s, attempts, cfg, page).events) == [page + 1] + Requests(rest.events);
      }
    }
  }

  /** A pass ends the loop normally only on a page that was fetched,
      parsed and found short. */
  lemma StepDoneNeedsShortPage(s: Session, a: Attempt, cfg: Config, page: int)
    ensures Step(s, a, cfg, page).next == Stop(Done) ==>
      Observe(s, a.response).1.Ok? && Reached(Work(Observe(s, a.response).1.value, a, cfg)) &&
      Length(Work(Observe(s, a.response).1.value, a, cfg).unpacked.value).Ok? &&
      Length(Work(Observe(s, a.response).1.value, a, cfg).unpacked.value).value < cfg.rpp
  {
    var observed := Observe(s, a.response);
    match observed.1
    case Err(_) =>
      RetryAfterEvents(observed.0, [PageFetch(cfg, page)]);
    case Ok(body) =>
      AfterFetchControl(observed.0, cfg, PageFetch(cfg, page), Work(body, a, cfg));
      WorkLength(body, a, cfg);
  }

  /** With a page size of zero or less no page is short, so the loop never
      ends normally. */
  lemma {:induction false} RunNeverDoneWithoutPageSize(s: Session, attempts: seq<Attempt>, cfg: Config, page: int)
    requires cfg.rpp <= 0
    ensures Run(s, attempts, cfg, page).end != Finished(Done)
    decreases |attempts|
  {
    if attempts != [] {
      var st := Step(s, attempts[0], cfg, page + 1);
      StepDoneNeedsShortPage(s, attempts[0], cfg, page + 1);
      if !st.next.Stop? {
        var p' := if st.next == Retry then page else page + 1;
        RunNeverDoneWithoutPageSize(st.session, attempts[1..], cfg, p');
      }
    }
  }

  /** Events without page requests carry no page parameters. */
  lemma {:induction false} NoRequestsNoQueries(evs: seq<Event>)
    requires Requests(evs) == []
    ensures Queried(evs) == []
  {
    if evs != [] {
      assert !evs[0].Fetch?;
      NoRequestsNoQueries(evs[1..]);
    }
  }

  lemma {:induction false} QueriedAppend(a: seq<Event>, b: seq<Event>)
    ensures Queried(a + b) == Queried(a) + Queried(b)
  {
    if a == [] {
      assert a + b == b;
    } else {
      assert (a + b)[0] == a[0];
      assert (a + b)[1..] == a[1..] + b;
      QueriedAppend(a[1..], b);
    }
  }

  /** A pass sends the caller's parameters, without `page` and `limit`,
      exactly once. */
  lemma StepQueries(s: Session, a: Attempt, cfg: Config, page: int)
    ensures Queried(Step(s, a, cfg, page).events) == [cfg.params - {"page", "limit"}]
  {
    var evs := Step(s, a, cfg, page).events;
    StepEvents(s, a, cfg, page);
    assert Requests(evs) == [page] + Requests(evs[1..]);
    NoRequestsNoQueries(evs[1..]);
  }

  /** Every page request of the loop carries the caller's parameters. */
  lemma {:induction false} RunQueries(s: Session, attempts: seq<Attempt>, cfg: Config, page: int)
    ensures forall k :: 0 <= k < |Queried(Run(s, attempts, cfg, page).events)| ==>
      Queried(Run(s, attempts, cfg, page).events)[k] == cfg.params - {"page", "limit"}
    decreases |attempts|
  {
    if attempts != [] {
      var st := Step(s, attempts[0], cfg, page + 1);
      StepQueries(s, attempts[0], cfg, page + 1);
      if !st.next.Stop? {
        var p' := if st.next == Retry then page else page + 1;
        var rest := Run(st.session, attempts[1..], cfg, p');
        RunQueries(st.session, attempts[1..], cfg, p');
        QueriedAppend(st.events, rest.events);
      }
    }
  }

  /** Every page request of a `resource` call carries its parameters, and
      the page size never grows. */
  lemma ResourceQueries(s: Session, rpp: int, storeHash: string, name: string, params: Query,
                        attempts: seq<Attempt>, normalize: string -> Option<string>)
    ensures forall k :: 0 <= k < |Queried(ResourceRun(s, rpp, storeHash, name, params, attempts, normalize).events)| ==>
      Queried(ResourceRun(s, rpp, storeHash, name, params, attempts, normalize).events)[k] == params - {"page", "limit"}
    ensures ResourceRun(s, rpp, storeHash, name, params, attempts, normalize).rpp <= rpp
  {
    PrepareClamps(storeHash, name, params, rpp, s.rateLimit, normalize);
    var prepared := Prepare(storeHash, name, params, rpp, s.rateLimit, normalize);
    if prepared.Ok? {
      RunQueries(s, attempts, prepared.value, 0);
    }
  }

  /** Sub-resource responses carry decoded JSON: no fetch handle. */
  ghost predicate DecodedSubResponses(attempts: seq<Attempt>)
  {
    forall i, u :: 0 <= i < |attempts| ==> NoPending(attempts[i].sub(u).body)
  }

  lemma SubGetResolved(a: Attempt)
    requires forall u :: NoPending(a.sub(u).body)
    ensures FetchesResolved(SubGet(a))
  {
    forall u | SubGet(a)(u).Ok? ensures NoPending(SubGet(a)(u).value) {
      assert NoPending(a.sub(u).body);
    }
  }

  /** Every row the loop emits is fully resolved and free of excluded
      paths. */
  lemma {:induction false} RunEmitsCleanRows(s: Session, attempts: seq<Attempt>, cfg: Config, page: int)
    requires DecodedSubResponses(attempts)
    ensures forall k :: 0 <= k < |Emitted(Run(s, attempts, cfg, page).events)| ==>
      NoPending(Emitted(Run(s, attempts, cfg, page).events)[k]) &&
      NoExcluded(Emitted(Run(s, attempts, cfg, page).events)[k], cfg.endpoint.excludePaths, [])
    decreases |attempts|
  {
    if attempts != [] {
      var a := attempts[0];
      var st := Step(s, a, cfg, page + 1);
      assert forall u :: NoPending(a.sub(u).body) by {
        forall u ensures NoPending(a.sub(u).body) { assert NoPending(attempts[0].sub(u).body); }
      }
      SubGetResolved(a);
      StepEvents(s, a, cfg, page + 1);
      PassRowsAreClean(s, a, cfg);
      if !st.next.Stop? {
        var p' := if st.next == Retry then page else page + 1;
        var rest := Run(st.session, attempts[1..], cfg, p');
        assert DecodedSubResponses(attempts[1..]) by {
          forall i, u | 0 <= i < |attempts[1..]| ensures NoPending(attempts[1..][i].sub(u).body) {
            assert attempts[1..][i] == attempts[i + 1];
          }
        }
        RunEmitsCleanRows(st.session, attempts[1..], cfg, p');
        EmittedAppend(st.events, rest.events);
      }
    }
  }

  lemma PassRowsAreClean(s: Session, a: Attempt, cfg: Config)
    requires FetchesResolved(SubGet(a))
    ensures forall k :: 0 <= k < |PassRows(s, a, cfg)| ==>
      NoPending(PassRows(s, a, cfg)[k]) && NoExcluded(PassRows(s, a, cfg)[k], cfg.endpoint.excludePaths, [])
  {
    var body := Observe(s, a.response).1;
    if body.Ok? && Reached(Work(body.value, a, cfg)) && Iterated(Work(body.value, a, cfg).unpacked.value).Ok? {
      var items := Iterated(Work(body.value, a, cfg).unpacked.value).value;
      var rows := PassRows(s, a, cfg);
      EmitPageIsProcessedPrefix(items, Processor(SubGet(a), cfg));
      forall k | 0 <= k < |rows|
        ensures NoPending(rows[k]) && NoExcluded(rows[k], cfg.endpoint.excludePaths, [])
      {
        ProcessedRowIsClean(items[k], SubGet(a), cfg.endpoint.excludePaths, cfg.endpoint.dateFields, cfg.normalize);
      }
    }
  }

  // ---------------------------------------------------------------------
  // Worked examples
  // ---------------------------------------------------------------------

  /** A plain page: a 200 response without rate-limit headers whose body is
      a list of numbers. */
  function PlainPage(rows: seq<Json>): Attempt
  {
    Attempt(Response(200, map[], Arr(rows)), u => Response(404, map[], Null))
  }

  /** A 429 response carrying the rate-limit headers. */
  function LimitedPage(h: Headers): Attempt
  {
    Attempt(Response(429, h, Null), u => Response(404, map[], Null))
  }

  function ExampleHeaders(): Headers
  {
    map[ResetHeader := 20000, WindowHeader := 30000, LeftHeader := 0, QuotaHeader := 150]
  }

  function Numbers(n: nat): seq<Json>
  {
    seq(n, k => Num(k))
  }

  lemma {:induction false} NumbersUnpack(rows: seq<Json>, exclude: set<Path>)
    requires forall k :: 0 <= k < |rows| ==> rows[k].Num?
    ensures UnpackItems(rows, exclude, []) == Some(rows)
  {
    if rows != [] {
      assert forall k :: 0 <= k < |rows[1..]| ==> rows[1..][k] == rows[k + 1];
      NumbersUnpack(rows[1..], exclude);
      assert rows == [rows[0]] + rows[1..];
    }
  }

  /** A version-2 pass over a plain page of numbers: one request, the
      pause if one is due, then every row, then the break test. */
  lemma StepOnPlainPage(s: Session, n: nat, cfg: Config, page: int)
    requires cfg.endpoint.version == 2
    ensures Step(s, PlainPage(Numbers(n)), cfg, page) ==
      StepResult(if ShouldPause(s.rateLimit, cfg.need) then Session(0, s.rateLimit) else Session(s.requestCount + 1, s.rateLimit),
                 PassHead(s, cfg, PageFetch(cfg, page)) + Emits(Numbers(n)), AfterPage(n, cfg.rpp))
  {
    var rows := Numbers(n);
    var a := PlainPage(rows);
    var s1 := Session(s.requestCount + 1, s.rateLimit);
    assert Observe(s, a.response) == (s1, Ok(Arr(rows)));
    assert PageData(Arr(rows), 2) == Ok(Arr(rows));
    NumbersUnpack(rows, cfg.endpoint.excludePaths);
    forall k | 0 <= k < |rows| ensures Processor(SubGet(a), cfg)(rows[k]) == Ok(rows[k]) {
      assert rows[k] == Num(k);
    }
    EmitPageAllRowsOk(rows, Processor(SubGet(a), cfg));
    assert Work(Arr(rows), a, cfg) == PageWork(Ok(Arr(rows)), Some(Arr(rows)), Emission(rows, AllEmitted));
    assert PassHead(s1, cfg, PageFetch(cfg, page)) == PassHead(s, cfg, PageFetch(cfg, page));
  }

  function Pages(ns: seq<nat>): seq<Attempt>
  {
    if ns == [] then [] else [PlainPage(Numbers(ns[0]))] + Pages(ns[1..])
  }

  function Sum(ns: seq<nat>): nat
  {
    if ns == [] then 0 else ns[0] + Sum(ns[1..])
  }

  /** The `n` integers from `first` on. */
  function Consecutive(first: int, n: nat): seq<int>
    decreases n
  {
    if n == 0 then [] else [first] + Consecutive(first + 1, n - 1)
  }

  /** A plain page while the record is unknown: one request, every row. */
  lemma PlainStep(s: Session, n: nat, cfg: Config, page: int)
    requires cfg.endpoint.version == 2 && s.rateLimit == Unknown
    ensures Step(s, PlainPage(Numbers(n)), cfg, page).session == Session(s.requestCount + 1, Unknown)
    ensures Step(s, PlainPage(Numbers(n)), cfg, page).next == AfterPage(n, cfg.rpp)
    ensures Requests(Step(s, PlainPage(Numbers(n)), cfg, page).events) == [page]
    ensures Emitted(Step(s, PlainPage(Numbers(n)), cfg, page).events) == Numbers(n)
  {
    var req := PageFetch(cfg, page);
    StepOnPlainPage(s, n, cfg, page);
    assert PassHead(s, cfg, req) == [req];
    EmitsOnlyEmit(Numbers(n));
    SingleEvent(req);
    RequestsAppend([req], Emits(Numbers(n)));
    EmittedAppend([req], Emits(Numbers(n)));
  }

  /** Plain pages, all full but the last: one request per page, for
      consecutive page numbers, every row emitted, then the loop ends. */
  lemma {:induction false} PlainPagesRun(s: Session, ns: seq<nat>, cfg: Config, page: int)
    requires cfg.endpoint.version == 2 && s.rateLimit == Unknown
    requires |ns| > 0 && ns[|ns| - 1] < cfg.rpp
    requires forall k :: 0 <= k < |ns| - 1 ==> ns[k] >= cfg.rpp
    ensures Run(s, Pages(ns), cfg, page).end == Finished(Done)
    ensures Requests(Run(s, Pages(ns), cfg, page).events) == Consecutive(page + 1, |ns|)
    ensures |Emitted(Run(s, Pages(ns), cfg, page).events)| == Sum(ns)
    decreases |ns|
  {
    var st := Step(s, PlainPage(Numbers(ns[0])), cfg, page + 1);
    PlainStep(s, ns[0], cfg, page + 1);
    assert Pages(ns)[0] == PlainPage(Numbers(ns[0]));
    assert Pages(ns)[1..] == Pages(ns[1..]);
    RunStep(s, Pages(ns), cfg, page, st);
    if |ns| == 1 {
      assert Sum(ns) == ns[0] + Sum([]);
    } else {
      assert ns[0] >= cfg.rpp;
      assert forall k :: 0 <= k < |ns[1..]| - 1 ==> ns[1..][k] == ns[k + 1];
      PlainPagesRun(st.session, ns[1..], cfg, page + 1);
      var rest := Run(st.session, Pages(ns[1..]), cfg, page + 1);
      RequestsAppend(st.events, rest.events);
      EmittedAppend(st.events, rest.events);
    }
  }

  /** The coupons endpoint at the default page size, with the record
      still unknown: version 2 and pages of 50. */
  lemma CouponsPrepared(normalize: string -> Option<string>)
    ensures Prepare("abc", "coupons", map[], DefaultResultsPerPage, Unknown, normalize).Ok?
    ensures Prepare("abc", "coupons", map[], DefaultResultsPerPage, Unknown, normalize).value.rpp == 50
    ensures Prepare("abc", "coupons", map[], DefaultResultsPerPage, Unknown, normalize).value.endpoint.version == 2
  {
  }

  /** Pages of 50, 50 and 23 rows at the default page size: three requests,
      for pages 1, 2 and 3, and 123 rows, then the loop ends. */
  lemma ThreePagesOfCoupons(s: Session, cfg: Config)
    requires s.rateLimit == Unknown
    requires Prepare("abc", "coupons", map[], DefaultResultsPerPage, Unknown, cfg.normalize) == Ok(cfg)
    ensures Run(s, Pages([50, 50, 23]), cfg, 0).end == Finished(Done)
    ensures Requests(Run(s, Pages([50, 50, 23]), cfg, 0).events) == [1, 2, 3]
    ensures |Emitted(Run(s, Pages([50, 50, 23]), cfg, 0).events)| == 123
  {
    CouponsPrepared(cfg.normalize);
    ThreePlainPages(s, cfg, [50, 50, 23]);
  }

  /** Two full pages and a short one while the record is unknown. */
  lemma ThreePlainPages(s: Session, cfg: Config, ns: seq<nat>)
    requires s.rateLimit == Unknown && cfg.endpoint.version == 2
    requires |ns| == 3 && ns[0] >= cfg.rpp && ns[1] >= cfg.rpp && ns[2] < cfg.rpp
    ensures Run(s, Pages(ns), cfg, 0).end == Finished(Done)
    ensures Requests(Run(s, Pages(ns), cfg, 0).events) == [1, 2, 3]
    ensures |Emitted(Run(s, Pages(ns), cfg, 0).events)| == ns[0] + ns[1] + ns[2]
  {
    PlainPagesRun(s, ns, cfg, 0);
    assert Consecutive(1, 3) == [1, 2, 3];
    var tail := ns[1..][1..];
    assert Sum(tail) == ns[2] by {
      assert tail[0] == ns[2] && tail[1..] == [];
    }
    assert Sum(ns) == ns[0] + ns[1] + ns[2] by {
      assert Sum(ns[1..]) == ns[1] + Sum(tail);
    }
  }

  /** A 429 carrying a record with a 30 s window: the page is retried
      after 31 s. */
  lemma StepOnLimitedPage(s: Session, cfg: Config, page: int)
    ensures Step(s, LimitedPage(ExampleHeaders()), cfg, page) ==
      StepResult(Session(s.requestCount + 1, Known(20000, 30000, 0, 150)), [PageFetch(cfg, page), Sleep(31000)], Retry)
  {
    var h := ExampleHeaders();
    assert ParseRateLimit(h) == Ok(Known(20000, 30000, 0, 150));
    assert Observe(s, LimitedPage(h).response) ==
      (Session(s.requestCount + 1, Known(20000, 30000, 0, 150)), Err(RateLimitExceeded));
  }

  /** A 429 with a 30 s window and no requests left, then a short page:
      the page is requested twice with a sleep of 31 s between, the second
      request waits the 20 s until the window resets (even without
      sub-requests, since 0 - 0 < 1), and the loop ends. */
  lemma {:induction false} RetryThenShortPage(s: Session, cfg: Config, n: nat, page: int)
    requires cfg.endpoint.version == 2 && cfg.need >= 0 && n < cfg.rpp
    ensures Run(s, [LimitedPage(ExampleHeaders()), PlainPage(Numbers(n))], cfg, page) ==
      RunResult(Session(0, Known(20000, 30000, 0, 150)),
                [PageFetch(cfg, page + 1), Sleep(31000), PageFetch(cfg, page + 1), Sleep(20000)] + Emits(Numbers(n)),
                Finished(Done))
  {
    var rl := Known(20000, 30000, 0, 150);
    var s1 := Session(s.requestCount + 1, rl);
    var attempts := [LimitedPage(ExampleHeaders()), PlainPage(Numbers(n))];
    StepOnLimitedPage(s, cfg, page + 1);
    StepOnPlainPage(s1, n, cfg, page + 1);
    assert ShouldPause(rl, cfg.need);
    var e2 := PassHead(s1, cfg, PageFetch(cfg, page + 1)) + Emits(Numbers(n));
    var st2 := StepResult(Session(0, rl), e2, Stop(Done));
    RunStep(s, attempts, cfg, page, Step(s, attempts[0], cfg, page + 1));
    assert attempts[1..] == [PlainPage(Numbers(n))];
    RunStep(s1, attempts[1..], cfg, page, st2);
  }

  /** Two requests, each followed by a sleep, then rows: two page numbers
      and exactly those rows. */
  lemma RetryEvents(f1: Event, z1: Event, f2: Event, z2: Event, rows: seq<Json>)
    requires f1.Fetch? && z1.Sleep? && f2.Fetch? && z2.Sleep?
    ensures Requests([f1, z1, f2, z2] + Emits(rows)) == [f1.page, f2.page]
    ensures Emitted([f1, z1, f2, z2] + Emits(rows)) == rows
  {
    var head := [f1, z1, f2, z2];
    FetchThenSleep([f1, z1]);
    FetchThenSleep([f2, z2]);
    assert head == [f1, z1] + [f2, z2];
    RequestsAppend([f1, z1], [f2, z2]);
    EmittedAppend([f1, z1], [f2, z2]);
    EmitsOnlyEmit(rows);
    RequestsAppend(head, Emits(rows));
    EmittedAppend(head, Emits(rows));
  }

  /** A page request followed by a sleep: one request, no rows. */
  lemma FetchThenSleep(evs: seq<Event>)
    requires |evs| == 2 && evs[0].Fetch? && evs[1].Sleep?
    ensures Requests(evs) == [evs[0].page] && Emitted(evs) == []
  {
    assert evs == [evs[0]] + [evs[1]];
    SingleEvent(evs[0]);
    SingleEvent(evs[1]);
    RequestsAppend([evs[0]], [evs[1]]);
    EmittedAppend([evs[0]], [evs[1]]);
  }

  /** Coupons, with a 429 on the first request and then a page of three:
      page 1 twice, three rows, and the loop ends. */
  lemma RetryOnCoupons(s: Session, cfg: Config)
    requires Prepare("abc", "coupons", map[], DefaultResultsPerPage, Unknown, cfg.normalize) == Ok(cfg)
    ensures Run(s, [LimitedPage(ExampleHeaders()), PlainPage(Numbers(3))], cfg, 0).end == Finished(Done)
    ensures Requests(Run(s, [LimitedPage(ExampleHeaders()), PlainPage(Numbers(3))], cfg, 0).events) == [1, 1]
    ensures Emitted(Run(s, [LimitedPage(ExampleHeaders()), PlainPage(Numbers(3))], cfg, 0).events) == Numbers(3)
  {
    assert cfg.rpp == 50 && cfg.endpoint.version == 2 && cfg.need == 0;
    RetryThenShortPage(s, cfg, 3, 0);
    RetryEvents(PageFetch(cfg, 1), Sleep(31000), PageFetch(cfg, 1), Sleep(20000), Numbers(3));
  }
}
