/** The response hook of `Bigcommerce` (tap_bigcommerce/bigcommerce.py):
    status classification, the rate-limit record read from the four
    `X-Rate-Limit-*` headers, and the page-size and pause rules built on it.
    The hook is stated here as a function on the session's counters; the
    class in Paginator.dfy applies it to its fields. */
module RateLimits {
  import opened Common
  import opened JsonValues

  const ResetHeader: string := "X-Rate-Limit-Time-Reset-Ms"
  const WindowHeader: string := "X-Rate-Limit-Time-Window-Ms"
  const LeftHeader: string := "X-Rate-Limit-Requests-Left"
  const QuotaHeader: string := "X-Rate-Limit-Requests-Quota"

  /** Response headers, with the integer headers already decoded. */
  type Headers = map<string, nat>

  /** An HTTP response: status, headers and the decoded JSON body. */
  datatype Response = Response(status: int, headers: Headers, body: Json)

  /** `rate_limit`: all four values None until a response carries the
      headers, then all four integers. */
  datatype RateLimit =
    | Unknown
    | Known(msUntilReset: nat, windowSizeMs: nat, requestsRemaining: nat, requestsQuota: nat)

  /** `_update_rate_limit(headers)`: a fresh record of the four integer
      headers, read in this order; a missing one raises KeyError. */
  function ParseRateLimit(h: Headers): Result<RateLimit>
  {
    if ResetHeader !in h then Err(KeyError(ResetHeader))
    else if WindowHeader !in h then Err(KeyError(WindowHeader))
    else if LeftHeader !in h then Err(KeyError(LeftHeader))
    else if QuotaHeader !in h then Err(KeyError(QuotaHeader))
    else Ok(Known(h[ResetHeader], h[WindowHeader], h[LeftHeader], h[QuotaHeader]))
  }

  /** The record is complete iff all four headers are present; it holds
      exactly their values; and no other header influences it. */
  lemma ParseRateLimitReadsFourHeaders(h: Headers, h': Headers)
    ensures ParseRateLimit(h).Ok? <==> ResetHeader in h && WindowHeader in h && LeftHeader in h && QuotaHeader in h
    ensures ParseRateLimit(h).Ok? ==>
      ParseRateLimit(h).value == Known(h[ResetHeader], h[WindowHeader], h[LeftHeader], h[QuotaHeader])
    ensures (forall k :: k in {ResetHeader, WindowHeader, LeftHeader, QuotaHeader} ==>
               (k in h <==> k in h') && (k in h ==> h[k] == h'[k])) ==>
      ParseRateLimit(h) == ParseRateLimit(h')
  {
  }

  /** `resp.data` after the hook, or the exception it raises: 204 gives an
      empty list, 429 the rate-limit exception, any other non-200 status an
      HTTPError, and 200 the decoded body. */
  function ResponseData(status: int, body: Json): (r: Result<Json>)
  {
    if status != 200 then
      if status == 204 then Ok(Arr([]))
      else if status == 429 then Err(RateLimitExceeded)
      else Err(HttpError(status))
    else Ok(body)
  }

  lemma ResponseDataClassifies(status: int, body: Json)
    ensures ResponseData(status, body).Ok? <==> status == 200 || status == 204
    ensures status == 200 ==> ResponseData(status, body) == Ok(body)
    ensures status == 204 ==> ResponseData(status, body) == Ok(Arr([]))
    ensures ResponseData(status, body) == Err(RateLimitExceeded) <==> status == 429
    ensures status !in {200, 204, 429} ==> ResponseData(status, body) == Err(HttpError(status))
  {
  }

  /** What awaiting a request gives: the hook first rebuilds the rate-limit
      record when the reset header is present (and raises if another of the
      four is missing), then classifies the status. */
  function HookResult(resp: Response): Result<Json>
  {
    if ResetHeader in resp.headers && ParseRateLimit(resp.headers).Err? then Err(ParseRateLimit(resp.headers).error)
    else ResponseData(resp.status, resp.body)
  }

  /** The counters the hook maintains. */
  datatype Session = Session(requestCount: nat, rateLimit: RateLimit)

  /** The record after a response: replaced wholesale when the reset header
      is present and the record parses, otherwise left as it was. */
  function NextRateLimit(prev: RateLimit, h: Headers): RateLimit
  {
    if ResetHeader in h && ParseRateLimit(h).Ok? then ParseRateLimit(h).value else prev
  }

  /** `_response_hook(resp)` on the session's counters. */
  function Observe(s: Session, resp: Response): (Session, Result<Json>)
  {
    (Session(s.requestCount + 1, NextRateLimit(s.rateLimit, resp.headers)), HookResult(resp))
  }

  /** The hook counts every response and overwrites the record rather than
      merging it with the old one: the new record does not depend on the old
      record at all when the headers are complete, and is the old record
      otherwise. */
  lemma ObserveOverwrites(s: Session, s': Session, resp: Response)
    ensures Observe(s, resp).0.requestCount == s.requestCount + 1
    ensures ParseRateLimit(resp.headers).Ok? ==>
      Observe(s, resp).0.rateLimit == Observe(s', resp).0.rateLimit == ParseRateLimit(resp.headers).value
    ensures ParseRateLimit(resp.headers).Err? ==> Observe(s, resp).0.rateLimit == s.rateLimit
    ensures Observe(s, resp).1 == Observe(s', resp).1
  {
    if ParseRateLimit(resp.headers).Ok? {
      ParseRateLimitReadsFourHeaders(resp.headers, resp.headers);
    }
  }

  /** Because the record is overwritten, a later response can raise
      `requests_remaining`: the record is not monotone. */
  lemma RecordIsNotMonotone()
    ensures
      var before := Session(3, Known(1000, 30000, 10, 150));
      var resp := Response(200, map[ResetHeader := 900, WindowHeader := 30000, LeftHeader := 140, QuotaHeader := 150], Null);
      Observe(before, resp).0.rateLimit.requestsRemaining == 140 > before.rateLimit.requestsRemaining
  {
    var h := map[ResetHeader := 900, WindowHeader := 30000, LeftHeader := 140, QuotaHeader := 150];
    assert ParseRateLimit(h) == Ok(Known(900, 30000, 140, 150));
  }

  // ---------------------------------------------------------------------
  // The governor's two decisions
  // ---------------------------------------------------------------------

  /** Margin subtracted from the per-window page size. */
  const PageMargin: int := 5

  /** `min(current, floor(quota / sub_resources) - 5)` when the resource has
      sub-resources, `current` otherwise. */
  function SafePageSize(current: int, quota: int, subResources: int): int
  {
    if subResources > 0 then Min(current, quota / subResources - PageMargin) else current
  }

  /** The page size never grows, and with sub-resources one page's
      sub-requests fit in a window's quota with the margin to spare. */
  lemma SafePageSizeBounds(current: int, quota: int, subResources: int)
    ensures SafePageSize(current, quota, subResources) <= current
    ensures subResources <= 0 ==> SafePageSize(current, quota, subResources) == current
    ensures subResources > 0 ==>
      SafePageSize(current, quota, subResources) * subResources <= quota - PageMargin * subResources
    ensures subResources > 0 && current <= quota / subResources - PageMargin ==>
      SafePageSize(current, quota, subResources) == current
  {
    if subResources > 0 {
      var r := SafePageSize(current, quota, subResources);
      var q := quota / subResources;
      assert r <= q - PageMargin;
      assert q * subResources <= quota;
      assert r * subResources <= (q - PageMargin) * subResources by {
        var d := q - PageMargin - r;
        assert d >= 0;
        assert (q - PageMargin) * subResources == r * subResources + d * subResources;
      }
    }
  }

  /** A quota of 150 with the 3 sub-resources of orders and the default of
      50 gives pages of 45. */
  lemma SafePageSizeForOrders()
    ensures SafePageSize(50, 150, 3) == 45
  {
  }

  /** A quota below six requests per sub-resource gives a page size of zero
      or less. */
  lemma SafePageSizeCanVanish()
    ensures SafePageSize(50, 15, 3) == 0
    ensures SafePageSize(50, 3, 3) == -4
  {
  }

  /** The courtesy pause: taken iff the record is known and fewer than one
      request would remain after the page's sub-requests. */
  predicate ShouldPause(rl: RateLimit, requestsNeed: int)
  {
    rl.Known? && rl.requestsRemaining - requestsNeed < 1
  }
}
