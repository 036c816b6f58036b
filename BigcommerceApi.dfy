/** The class `Bigcommerce` (tap_bigcommerce/bigcommerce.py): the request
    counters and the page size as fields, the response hook, `make_url`,
    `_reset_session` and `resource` as methods, each proved to do what the
    functions of the `Paginator` module say. */
module BigcommerceApi {
  import opened Common
  import opened JsonValues
  import opened Transforms
  import opened RateLimits
  import opened Paginator

  class Bigcommerce {
    const clientId: string
    const accessToken: string
    const storeHash: string
    var requestCount: nat
    var rateLimit: RateLimit
    var resultsPerPage: int

    /** `__init__` before its call to `_reset_session`: the counters start
        empty and the page size at its default. */
    constructor(clientId: string, accessToken: string, storeHash: string)
      ensures this.clientId == clientId && this.accessToken == accessToken && this.storeHash == storeHash
      ensures requestCount == 0 && rateLimit == Unknown && resultsPerPage == DefaultResultsPerPage
    {
      this.clientId := clientId;
      this.accessToken := accessToken;
      this.storeHash := storeHash;
      requestCount := 0;
      rateLimit := Unknown;
      resultsPerPage := DefaultResultsPerPage;
    }

    function Counters(): Session
      reads this
    {
      Session(requestCount, rateLimit)
    }

    /** `_response_hook(resp)`. */
    method ResponseHook(resp: Response) returns (r: Result<Json>)
      modifies this
      ensures (Counters(), r) == Observe(old(Counters()), resp)
      ensures resultsPerPage == old(resultsPerPage)
    {
      requestCount := requestCount + 1;
      if ResetHeader in resp.headers {
        var parsed := ParseRateLimit(resp.headers);
        if parsed.Err? {
          return Err(parsed.error);
        }
        rateLimit := parsed.value;
      }
      r := ResponseData(resp.status, resp.body);
    }

    /** `make_url(version, *segments)`: the versioned base url, then each
        segment after a slash. */
    method MakeUrl(version: int, segments: seq<string>) returns (url: string)
      ensures url == UrlFor(storeHash, version, segments)
    {
      url := AppendSegments(VersionBase(storeHash, version), segments);
    }

    /** The loop of `make_url`. */
    static method AppendSegments(base: string, segments: seq<string>) returns (url: string)
      ensures url == base + Joined(segments)
    {
      url := base;
      var i := 0;
      while i < |segments|
        invariant 0 <= i <= |segments|
        invariant url == base + Joined(segments[..i])
      {
        JoinedSnoc(segments[..i], segments[i]);
        assert segments[..i + 1] == segments[..i] + [segments[i]];
        url := url + "/" + segments[i];
        i := i + 1;
      }
      assert segments[..i] == segments;
    }

    /** `_reset_session()`: the counter restarts and the authorisation
        request to the `time` url is awaited, through the hook. */
    method ResetSession(auth: Response) returns (url: string, r: Result<Json>)
      modifies this
      ensures url == UrlFor(storeHash, 2, ["time"])
      ensures (Counters(), r) == Observe(Session(0, old(rateLimit)), auth)
      ensures resultsPerPage == old(resultsPerPage)
    {
      requestCount := 0;
      url := MakeUrl(2, ["time"]);
      r := ResponseHook(auth);
    }

    /** The page rows processed one by one, as the generator yields them. */
    static method EmitRows(rows: seq<Json>, get: Json -> Result<Json>, cfg: Config) returns (e: Emission)
      ensures e == EmitPage(rows, Processor(get, cfg))
    {
      var out: seq<Json> := [];
      var i := 0;
      while i < |rows|
        invariant 0 <= i <= |rows|
        invariant EmitPage(rows, Processor(get, cfg)) ==
          Emission(out + EmitPage(rows[i..], Processor(get, cfg)).rows, EmitPage(rows[i..], Processor(get, cfg)).end)
      {
        assert rows[i..][1..] == rows[i + 1..];
        var r := Process(rows[i], get, cfg);
        if r.Err? {
          return Emission(out, if r.error == RateLimitExceeded then RateLimited else RowFailed(r.error));
        }
        out := out + [r.value];
        i := i + 1;
      }
      assert rows[i..] == [];
      e := Emission(out, AllEmitted);
    }

    /** One pass of the loop, on the instance's counters. */
    method PageStep(a: Attempt, cfg: Config, page: int) returns (st: StepResult)
      modifies this
      ensures st == Step(old(Counters()), a, cfg, page)
      ensures Counters() == st.session
      ensures resultsPerPage == old(resultsPerPage)
    {
      var req := PageFetch(cfg, page);
      var fetched := ResponseHook(a.response);
      if fetched.Err? {
        if fetched.error == RateLimitExceeded {
          st := RetryAfter(Counters(), [req]);
        } else {
          st := StepResult(Counters(), [req], Stop(Fatal(fetched.error)));
        }
        return;
      }
      ghost var observed := Counters();
      ghost var w := Work(fetched.value, a, cfg);
      var events := [req];
      if ShouldPause(rateLimit, cfg.need) {
        events := events + [Sleep(rateLimit.msUntilReset)];
        requestCount := 0;
      }
      assert events == PassHead(observed, cfg, req);
      var data := PageData(fetched.value, cfg.endpoint.version);
      assert w.data == data;
      if data.Err? {
        return StepResult(Counters(), events, Stop(Fatal(data.error)));
      }
      var unpacked := Unpack(data.value, cfg.endpoint.excludePaths, []);
      assert w.unpacked == unpacked;
      if unpacked.None? {
        return StepResult(Counters(), events, Stop(Fatal(KeyError("url"))));
      }
      var em: Emission;
      var rows := Iterated(unpacked.value);
      if rows.Err? {
        em := Emission([], RowFailed(rows.error));
      } else {
        em := EmitRows(rows.value, SubGet(a), cfg);
      }
      assert w.emission == em;
      events := events + Emits(em.rows);
      var count := Length(unpacked.value);
      match em.end
      case RateLimited =>
        st := RetryAfter(Counters(), events);
      case RowFailed(_) =>
        st := StepResult(Counters(), events + [Sleep(RowErrorSleepMs)], AfterLength(count, cfg.rpp));
      case AllEmitted =>
        st := StepResult(Counters(), events, AfterLength(count, cfg.rpp));
    }

    /** The preparation of `resource(name, params)`: the endpoint's url and
        the page size, clamped for an endpoint with sub-resources. */
    method Configure(name: string, params: Query, normalize: string -> Option<string>) returns (prepared: Result<Config>)
      modifies this
      ensures prepared == Prepare(storeHash, name, params, old(resultsPerPage), old(rateLimit), normalize)
      ensures Counters() == old(Counters())
      ensures resultsPerPage == (if prepared.Ok? then prepared.value.rpp else old(resultsPerPage))
    {
      var ep := EndpointFor(name);
      var url := MakeUrl(ep.version, [ep.path]);
      if ep.subResources > 0 {
        if rateLimit.Unknown? {
          return Err(TypeError);
        }
        resultsPerPage := SafePageSize(resultsPerPage, rateLimit.requestsQuota, ep.subResources);
      }
      prepared := Ok(Config(url, params, ep, resultsPerPage, resultsPerPage * ep.subResources, normalize));
    }

    /** The `while True` loop of `resource`, consuming the given attempts
        until it stops or they run out. */
    method Loop(cfg: Config, attempts: seq<Attempt>) returns (events: seq<Event>, end: RunEnd)
      modifies this
      ensures RunResult(Counters(), events, end) == Run(old(Counters()), attempts, cfg, 0)
      ensures resultsPerPage == old(resultsPerPage)
    {
      ghost var start := Counters();
      var page := 0;
      var i := 0;
      events := [];
      while i < |attempts|
        invariant 0 <= i <= |attempts|
        invariant resultsPerPage == old(resultsPerPage)
        invariant Run(start, attempts, cfg, 0) == Prepend(events, Run(Counters(), attempts[i..], cfg, page))
      {
        ghost var before := Counters();
        ghost var prior := page;
        ghost var rest := attempts[i + 1..];
        assert attempts[i..][1..] == rest;
        page := page + 1;
        var st := PageStep(attempts[i], cfg, page);
        RunStep(before, attempts[i..], cfg, prior, st);
        if st.next.Stop? {
          return events + st.events, Finished(st.next.outcome);
        }
        if st.next == Retry {
          page := page - 1;
        }
        PrependTwice(events, st.events, Run(Counters(), rest, cfg, page));
        events := events + st.events;
        i := i + 1;
      }
      end := Exhausted;
    }

    /** `resource(name, params)`: the preparation, then the loop. The page
        size only ever shrinks. */
    method Resource(name: string, params: Query, attempts: seq<Attempt>, normalize: string -> Option<string>)
      returns (events: seq<Event>, end: RunEnd)
      modifies this
      ensures resultsPerPage <= old(resultsPerPage)
      ensures match Prepare(storeHash, name, params, old(resultsPerPage), old(rateLimit), normalize)
        case Err(e) => events == [] && end == Finished(Fatal(e)) && Counters() == old(Counters())
        case Ok(cfg) =>
          resultsPerPage == cfg.rpp &&
          Run(old(Counters()), attempts, cfg, 0) == RunResult(Counters(), events, end)
      ensures ApiRun(Counters(), resultsPerPage, events, end) ==
        ResourceRun(old(Counters()), old(resultsPerPage), storeHash, name, params, attempts, normalize)
    {
      PrepareClamps(storeHash, name, params, resultsPerPage, rateLimit, normalize);
      var prepared := Configure(name, params, normalize);
      if prepared.Err? {
        return [], Finished(Fatal(prepared.error));
      }
      events, end := Loop(prepared.value, attempts);
    }

    /** `resource(name, params)` as a whole, stated by `ResourceRun`. */
    method ResourceCall(name: string, params: Query, attempts: seq<Attempt>, normalize: string -> Option<string>)
      returns (events: seq<Event>, end: RunEnd)
      modifies this
      ensures ApiRun(Counters(), resultsPerPage, events, end) ==
        ResourceRun(old(Counters()), old(resultsPerPage), storeHash, name, params, attempts, normalize)
    {
      events, end := Resource(name, params, attempts, normalize);
    }
  }
}
