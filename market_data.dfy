/** UpstoxFOData: authenticated requests with one retry on an invalid
    token, the response-key cache `keyMap`, and the candidate-key walks of
    the spot, quote, futures and option-chain fetchers. The HTTP endpoint
    is the oracle `api`, answering the n-th request sent with a given
    token; the token lifecycle's outside world is the oracle `authEnv`,
    consulted once per token request. */
module MarketData {
  import opened Wrappers
  import opened Text
  import opened Calendar
  import opened Sorting
  import opened Instruments
  import opened KeyResolver
  import opened Auth
  import opened Chain
  import opened Analytics
  import opened Expiry

  /** The envelope's "status": "success", "error", or anything else (or missing). */
  datatype Status = StatusSuccess | StatusError | StatusOther

  datatype ErrorDetail = ErrorDetail(errorCode: Option<string>)

  datatype Ohlc = Ohlc(open: Option<real>, high: Option<real>, low: Option<real>, close: Option<real>)

  /** A JSON number field that may be missing or null. */
  datatype Field = Absent | Null | Number(value: real)

  /** One entry of a market-quote response. last_price keeps apart a
      missing key and a null value; for the other fields absent and null
      read the same and are None. */
  datatype QuoteDetails = QuoteDetails(lastPriceField: Field, ohlc: Ohlc, oi: Option<int>, volume: Option<int>) {
    /** details.get("last_price"). */
    function LastPrice(): (p: Option<real>)
      ensures p.Some? <==> lastPriceField.Number?
      ensures p.Some? ==> p.value == lastPriceField.value
    {
      if lastPriceField.Number? then Some(lastPriceField.value) else None
    }
  }

  /** The envelope's "data": missing, a quote object (its entries in
      order), or an option-chain list. */
  datatype Payload = NoData | Quotes(entries: seq<(string, QuoteDetails)>) | ChainData(items: seq<ChainItem>)

  datatype Envelope = Envelope(status: Status, errors: seq<ErrorDetail>, data: Payload)

  /** A GET to /market-quote/quotes or to /option/chain. */
  datatype Request = QuoteRequest(key: string) | ChainRequest(key: string, expiry: Date)

  const InvalidTokenCode: string := "UDAPI100050"

  /** status "error" whose first error carries code UDAPI100050. */
  predicate IsInvalidTokenError(e: Envelope) {
    e.status == StatusError && |e.errors| > 0 && e.errors[0].errorCode == Some(InvalidTokenCode)
  }

  // ------------------------------------------------- the retry protocol

  datatype Event =
    | TokenFetched(result: Result<string, AuthError>)
    | Sent(request: Request, token: string, response: Envelope)
    | TokenInvalidated

  /** One _make_api_call as the events it causes: a token request; on
      success a request; on an invalid-token answer, invalidation, a fresh
      token request and, on success, the same request again. */
  predicate ApiCallTrace(req: Request, e: seq<Event>, r: Result<Envelope, AuthError>) {
    if |e| == 1 then
      e[0].TokenFetched? && e[0].result.Failure? && r == Failure(e[0].result.error)
    else if |e| == 2 then
      e[0].TokenFetched? && e[0].result.Success? &&
      e[1].Sent? && e[1].request == req && e[1].token == e[0].result.value &&
      !IsInvalidTokenError(e[1].response) && r == Success(e[1].response)
    else if |e| == 4 || |e| == 5 then
      e[0].TokenFetched? && e[0].result.Success? &&
      e[1].Sent? && e[1].request == req && e[1].token == e[0].result.value && IsInvalidTokenError(e[1].response) &&
      e[2] == TokenInvalidated && e[3].TokenFetched? &&
      (if |e| == 4 then e[3].result.Failure? && r == Failure(e[3].result.error)
       else e[3].result.Success? && e[4].Sent? && e[4].request == req && e[4].token == e[3].result.value &&
            r == Success(e[4].response))
    else false
  }

  /** The number of requests sent. */
  function Sends(e: seq<Event>): nat {
    if e == [] then 0 else Sends(e[..|e| - 1]) + (if e[|e| - 1].Sent? then 1 else 0)
  }

  lemma SendsSnoc(s: seq<Event>, x: Event)
    ensures Sends(s + [x]) == Sends(s) + (if x.Sent? then 1 else 0)
    ensures LatestResponse(s + [x], None) == if x.Sent? then Some(x.response) else LatestResponse(s, None)
    ensures forall b :: LatestResponse(s + [x], b) == if x.Sent? then Some(x.response) else LatestResponse(s, b)
  {
    assert (s + [x])[..|s|] == s;
  }

  /** The events before and after a point of the log. */
  lemma AppendSplit<T>(a: seq<T>, b: seq<T>)
    ensures (a + b)[..|a|] == a && (a + b)[|a|..] == b
  {
  }

  /** last_response after the events: the latest envelope received. */
  function LatestResponse(e: seq<Event>, before: Option<Envelope>): Option<Envelope> {
    if e == [] then before
    else if e[|e| - 1].Sent? then Some(e[|e| - 1].response)
    else LatestResponse(e[..|e| - 1], before)
  }

  /** Sends of a trace of at most five events, one step at a time. */
  lemma SendsOfShort(e: seq<Event>)
    requires |e| <= 5
    ensures Sends(e) == (if |e| > 0 && e[0].Sent? then 1 else 0) + (if |e| > 1 && e[1].Sent? then 1 else 0)
                      + (if |e| > 2 && e[2].Sent? then 1 else 0) + (if |e| > 3 && e[3].Sent? then 1 else 0)
                      + (if |e| > 4 && e[4].Sent? then 1 else 0)
    decreases |e|
  {
    if e != [] {
      SendsOfShort(e[..|e| - 1]);
    }
  }

  /** last_response after a trace of at most five events, one step at a time. */
  lemma LatestOfShort(e: seq<Event>, before: Option<Envelope>)
    requires |e| <= 5
    ensures LatestResponse(e, before) ==
      if |e| > 4 && e[4].Sent? then Some(e[4].response)
      else if |e| > 3 && e[3].Sent? then Some(e[3].response)
      else if |e| > 2 && e[2].Sent? then Some(e[2].response)
      else if |e| > 1 && e[1].Sent? then Some(e[1].response)
      else if |e| > 0 && e[0].Sent? then Some(e[0].response)
      else before
    decreases |e|
  {
    if e != [] {
      LatestOfShort(e[..|e| - 1], before);
    }
  }

  /** At most two requests per call, and a second one only after an
      invalid-token answer to the first and an invalidation in between. */
  lemma RetryBound(req: Request, e: seq<Event>, r: Result<Envelope, AuthError>)
    requires ApiCallTrace(req, e, r)
    ensures Sends(e) <= 2
    ensures Sends(e) == 2 ==> |e| == 5 && IsInvalidTokenError(e[1].response) && e[2] == TokenInvalidated
    ensures forall i :: 0 <= i < |e| && e[i].Sent? ==> e[i].request == req
  {
    SendsOfShort(e);
  }

  /** An answer that is not an invalid-token error is returned as it is,
      without a retry. */
  lemma NoRetryOtherwise(req: Request, e: seq<Event>, r: Result<Envelope, AuthError>)
    requires ApiCallTrace(req, e, r) && |e| >= 2 && !IsInvalidTokenError(e[1].response)
    ensures |e| == 2 && r == Success(e[1].response)
  {
  }

  /** Whatever happens, a successful call returns the latest envelope. */
  lemma ReturnsLatest(req: Request, e: seq<Event>, r: Result<Envelope, AuthError>, before: Option<Envelope>)
    requires ApiCallTrace(req, e, r) && r.Success?
    ensures LatestResponse(e, before) == Some(r.value)
  {
  }

  /** Every request in the events was answered by the API: the n-th
      request sent gets api's answer for its request, token and ordinal n. */
  ghost predicate Answered(e: seq<Event>, api: (Request, string, nat) -> Envelope) {
    e == [] ||
    (Answered(e[..|e| - 1], api) &&
     var x := e[|e| - 1];
     x.Sent? ==> x.response == api(x.request, x.token, Sends(e[..|e| - 1])))
  }

  lemma AnsweredSnoc(e: seq<Event>, x: Event, api: (Request, string, nat) -> Envelope)
    requires Answered(e, api)
    requires x.Sent? ==> x.response == api(x.request, x.token, Sends(e))
    ensures Answered(e + [x], api)
  {
    assert (e + [x])[..|e|] == e;
  }

  /** Answered, read at one position. */
  lemma {:induction false} AnsweredAt(e: seq<Event>, api: (Request, string, nat) -> Envelope, i: nat)
    requires Answered(e, api) && i < |e| && e[i].Sent?
    ensures e[i].response == api(e[i].request, e[i].token, Sends(e[..i]))
    decreases |e|
  {
    if i < |e| - 1 {
      var front := e[..|e| - 1];
      assert front[i] == e[i] && front[..i] == e[..i];
      AnsweredAt(front, api, i);
    }
  }

  /** The traces one after another. */
  function Flatten(t: seq<seq<Event>>): seq<Event> {
    if t == [] then [] else Flatten(t[..|t| - 1]) + t[|t| - 1]
  }

  /** The position of the k-th trace in the flattened events. */
  lemma {:induction false} FlattenAt(t: seq<seq<Event>>, k: nat, j: nat)
    requires k < |t| && j < |t[k]|
    ensures |Flatten(t[..k])| + |t[k]| <= |Flatten(t)|
    ensures Flatten(t)[|Flatten(t[..k])| + j] == t[k][j]
    decreases |t|
  {
    var front := t[..|t| - 1];
    if k == |t| - 1 {
      assert t[..k] == front;
    } else {
      assert front[..k] == t[..k] && front[k] == t[k];
      FlattenAt(front, k, j);
    }
  }

  /** The log against the events: the i-th call caused exactly the i-th
      trace, and the traces make up the events. */
  ghost predicate LogMatches(e: seq<Event>, traces: seq<seq<Event>>, calls: seq<Call>) {
    |traces| == |calls| && e == Flatten(traces) && TracesFit(traces, calls)
  }

  /** Each trace is an ApiCallTrace of its call. */
  ghost predicate TracesFit(traces: seq<seq<Event>>, calls: seq<Call>)
    requires |traces| == |calls|
  {
    calls == [] ||
    (TracesFit(traces[..|traces| - 1], calls[..|calls| - 1]) &&
     ApiCallTrace(calls[|calls| - 1].request, traces[|traces| - 1], calls[|calls| - 1].outcome))
  }

  /** TracesFit, read at one position. */
  lemma {:induction false} TracesFitAt(traces: seq<seq<Event>>, calls: seq<Call>, k: nat)
    requires |traces| == |calls| && TracesFit(traces, calls) && k < |calls|
    ensures ApiCallTrace(calls[k].request, traces[k], calls[k].outcome)
    decreases |calls|
  {
    if k < |calls| - 1 {
      var ft, fc := traces[..|traces| - 1], calls[..|calls| - 1];
      assert ft[k] == traces[k] && fc[k] == calls[k];
      TracesFitAt(ft, fc, k);
    }
  }

  lemma LogMatchesSnoc(e: seq<Event>, traces: seq<seq<Event>>, calls: seq<Call>, tr: seq<Event>, c: Call)
    requires LogMatches(e, traces, calls) && ApiCallTrace(c.request, tr, c.outcome)
    ensures LogMatches(e + tr, traces + [tr], calls + [c])
  {
    assert (traces + [tr])[..|traces|] == traces;
    assert (calls + [c])[..|calls|] == calls;
  }

  /** A successful outcome in the log is the API's answer to that call's
      own request, for the token and ordinal it was sent with. */
  lemma LoggedFromApi(e: seq<Event>, traces: seq<seq<Event>>, calls: seq<Call>,
                      api: (Request, string, nat) -> Envelope, k: nat)
    requires Answered(e, api) && LogMatches(e, traces, calls) && k < |calls| && calls[k].outcome.Success?
    ensures exists t: string, n: nat :: calls[k].outcome.value == api(calls[k].request, t, n)
  {
    var tr := traces[k];
    TracesFitAt(traces, calls, k);
    var j := if |tr| == 2 then 1 else 4;
    FlattenAt(traces, k, j);
    var i := |Flatten(traces[..k])| + j;
    assert e[i] == tr[j];
    AnsweredAt(e, api, i);
    assert calls[k].outcome.value == api(calls[k].request, tr[j].token, Sends(e[..i]));
  }

  // ----------------------------------------------- reading quote answers

  /** data.get("data", {}) for a quote request. */
  function QuoteEntries(e: Envelope): seq<(string, QuoteDetails)> {
    if e.data.Quotes? then e.data.entries else []
  }

  predicate HasKey(entries: seq<(string, QuoteDetails)>, k: string) {
    exists i :: 0 <= i < |entries| && entries[i].0 == k
  }

  function Lookup(entries: seq<(string, QuoteDetails)>, k: string): (d: Option<QuoteDetails>)
    ensures d.Some? <==> HasKey(entries, k)
    ensures d.Some? ==> exists i :: 0 <= i < |entries| && entries[i] == (k, d.value)
  {
    if entries == [] then None
    else if entries[0].0 == k then Some(entries[0].1)
    else
      var d := Lookup(entries[1..], k);
      assert HasKey(entries, k) ==> HasKey(entries[1..], k) by {
        if HasKey(entries, k) {
          var i :| 0 <= i < |entries| && entries[i].0 == k;
          assert entries[1..][i - 1].0 == k;
        }
      }
      assert d.Some? ==> HasKey(entries, k) by {
        if d.Some? {
          var i :| 0 <= i < |entries[1..]| && entries[1..][i] == (k, d.value);
          assert entries[i + 1] == (k, d.value);
        }
      }
      d
  }

  /** The first candidate that the answer has an entry for. */
  function FirstPresent(entries: seq<(string, QuoteDetails)>, candidates: seq<string>): (f: Option<nat>)
    ensures f.Some? ==> f.value < |candidates| && HasKey(entries, candidates[f.value])
    ensures f.Some? ==> forall j :: 0 <= j < f.value ==> !HasKey(entries, candidates[j])
    ensures f.None? ==> forall j :: 0 <= j < |candidates| ==> !HasKey(entries, candidates[j])
  {
    if candidates == [] then None
    else if HasKey(entries, candidates[0]) then Some(0)
    else
      var f := FirstPresent(entries, candidates[1..]);
      if f.Some? then Some(f.value + 1) else None
  }

  /** The first entry that has a last_price key, null or not. */
  function FirstPriced(entries: seq<(string, QuoteDetails)>): (i: Option<nat>)
    ensures i.Some? ==> i.value < |entries| && !entries[i.value].1.lastPriceField.Absent?
    ensures i.Some? ==> forall j :: 0 <= j < i.value ==> entries[j].1.lastPriceField.Absent?
    ensures i.None? ==> forall j :: 0 <= j < |entries| ==> entries[j].1.lastPriceField.Absent?
  {
    if entries == [] then None
    else if !entries[0].1.lastPriceField.Absent? then Some(0)
    else
      var i := FirstPriced(entries[1..]);
      if i.Some? then Some(i.value + 1) else None
  }

  /** The response keys get_spot_price and get_spot_quote look for. */
  function SpotVariants(key: string): seq<string> {
    [key, ReplaceChar(key, '|', ':'), ReplaceChar(key, ':', '|')]
  }

  /** The response keys get_futures_data looks for. */
  function FuturesVariants(key: string): seq<string> {
    [key, ReplaceChar(key, '|', ':')]
  }

  /** The price get_spot_price reads and the response key it records. */
  datatype SpotReading = SpotReading(price: Option<real>, alias: Option<string>)

  /** get_spot_price's reading of one answer to the request for `key`: the
      entry of the first variant present (its key recorded when it differs
      from `key`, even when it then has no usable last_price), else the
      first entry with a last_price key (its key recorded, even when the
      value is null). A missing or null last_price reads as no price. */
  function ReadSpotPrice(e: Envelope, key: string): (s: SpotReading)
    ensures e.status != StatusSuccess || !e.data.Quotes? ==> s == SpotReading(None, None)
    ensures s.alias.Some? ==> s.alias.value != key && HasKey(QuoteEntries(e), s.alias.value)
    ensures s.price.Some? ==> exists i :: 0 <= i < |QuoteEntries(e)| && QuoteEntries(e)[i].1.LastPrice() == s.price
    // the steps in order: the requested key, its colon form, its pipe form
    ensures e.status == StatusSuccess && e.data.Quotes? && HasKey(QuoteEntries(e), key) ==>
      s == SpotReading(Lookup(QuoteEntries(e), key).value.LastPrice(), None)
    ensures e.status == StatusSuccess && e.data.Quotes? && !HasKey(QuoteEntries(e), key) &&
            HasKey(QuoteEntries(e), ReplaceChar(key, '|', ':')) ==>
      var k := ReplaceChar(key, '|', ':');
      s == SpotReading(Lookup(QuoteEntries(e), k).value.LastPrice(), Some(k))
    ensures e.status == StatusSuccess && e.data.Quotes? && !HasKey(QuoteEntries(e), key) &&
            !HasKey(QuoteEntries(e), ReplaceChar(key, '|', ':')) && HasKey(QuoteEntries(e), ReplaceChar(key, ':', '|')) ==>
      var k := ReplaceChar(key, ':', '|');
      s == SpotReading(Lookup(QuoteEntries(e), k).value.LastPrice(), Some(k))
    // then the scan for the first entry with a last_price key
    ensures e.status == StatusSuccess && e.data.Quotes? &&
            (forall k :: k in SpotVariants(key) ==> !HasKey(QuoteEntries(e), k)) ==>
      match FirstPriced(QuoteEntries(e))
      case Some(i) => s == SpotReading(QuoteEntries(e)[i].1.LastPrice(), Some(QuoteEntries(e)[i].0))
      case None => s == SpotReading(None, None)
  {
    if e.status != StatusSuccess || !e.data.Quotes? then SpotReading(None, None)
    else
      var entries := e.data.entries;
      var variants := SpotVariants(key);
      assert variants[0] == key && variants[1] == ReplaceChar(key, '|', ':') && variants[2] == ReplaceChar(key, ':', '|');
      match FirstPresent(entries, variants)
      case Some(f) =>
        var found := variants[f];
        var d := Lookup(entries, found).value;
        assert exists i :: 0 <= i < |QuoteEntries(e)| && QuoteEntries(e)[i].1.LastPrice() == d.LastPrice() by {
          var i :| 0 <= i < |entries| && entries[i] == (found, d);
          assert QuoteEntries(e)[i].1 == d;
        }
        SpotReading(d.LastPrice(), if found != key then Some(found) else None)
      case None =>
        assert !HasKey(entries, key);
        match FirstPriced(entries)
        case Some(i) =>
          assert entries[i].0 != key by { assert !HasKey(entries, key); }
          SpotReading(entries[i].1.LastPrice(), Some(entries[i].0))
        case None => SpotReading(None, None)
  }

  /** The entry get_spot_quote and get_futures_data take from one answer:
      the first variant present, else the first entry unless its key is
      the empty string (falsy). */
  function ReadQuote(e: Envelope, variants: seq<string>): (q: Option<(string, QuoteDetails)>)
    ensures e.status != StatusSuccess ==> q.None?
    ensures q.Some? ==> exists i :: 0 <= i < |QuoteEntries(e)| && QuoteEntries(e)[i] == q.value
    ensures e.status == StatusSuccess && FirstPresent(QuoteEntries(e), variants).Some? ==>
      q.Some? && q.value.0 == variants[FirstPresent(QuoteEntries(e), variants).value]
    ensures e.status == StatusSuccess && FirstPresent(QuoteEntries(e), variants).Some? ==>
      q.value.1 == Lookup(QuoteEntries(e), q.value.0).value
    ensures e.status == StatusSuccess && FirstPresent(QuoteEntries(e), variants).None? ==>
      (q.Some? <==> QuoteEntries(e) != [] && QuoteEntries(e)[0].0 != "")
    ensures e.status == StatusSuccess && FirstPresent(QuoteEntries(e), variants).None? && q.Some? ==>
      q.value == QuoteEntries(e)[0]
  {
    var entries := QuoteEntries(e);
    if e.status != StatusSuccess then None
    else match FirstPresent(entries, variants)
      case Some(f) => Some((variants[f], Lookup(entries, variants[f]).value))
      case None => if entries != [] && entries[0].0 != "" then Some(entries[0]) else None
  }

  /** Python truthiness of an optional number: None and 0 are false. */
  predicate Nonzero(x: Option<real>) {
    x.Some? && x.value != 0.0
  }

  datatype SpotQuote = SpotQuote(
    symbol: string, ltp: Option<real>, previousClose: Option<real>, change: real, changePct: real,
    open: Option<real>, high: Option<real>, low: Option<real>)

  /** The dict get_spot_quote returns for a found entry. */
  function QuoteSummary(symbol: string, d: QuoteDetails): (q: SpotQuote)
    ensures q.symbol == symbol && q.ltp == d.LastPrice() && q.previousClose == d.ohlc.close
    ensures q.open == d.ohlc.open && q.high == d.ohlc.high && q.low == d.ohlc.low
    ensures Nonzero(d.LastPrice()) && Nonzero(d.ohlc.close) ==>
      q.change + d.ohlc.close.value == d.LastPrice().value && q.changePct * d.ohlc.close.value == q.change * 100.0
    ensures !(Nonzero(d.LastPrice()) && Nonzero(d.ohlc.close)) ==> q.change == 0.0 && q.changePct == 0.0
  {
    var ltp := d.LastPrice();
    var (change, pct) :=
      if Nonzero(ltp) && Nonzero(d.ohlc.close) then
        var c := ltp.value - d.ohlc.close.value;
        (c, c / d.ohlc.close.value * 100.0)
      else (0.0, 0.0);
    SpotQuote(symbol, ltp, d.ohlc.close, change, pct, d.ohlc.open, d.ohlc.high, d.ohlc.low)
  }

  /** get_spot_quote's candidates: the request key, then the small-cap or
      mid-cap index ids when the symbol names one. */
  function QuoteCandidates(key: string, symbol: string): (c: seq<string>)
    ensures |c| >= 1 && c[0] == key
    ensures Contains(Upper(symbol), "SMALLCAP") ==> |c| == 5
    ensures !Contains(Upper(symbol), "SMALLCAP") && Contains(Upper(symbol), "MIDCAP") ==> |c| == 4
    ensures !Contains(Upper(symbol), "SMALLCAP") && !Contains(Upper(symbol), "MIDCAP") ==> c == [key]
  {
    if Contains(Upper(symbol), "SMALLCAP") then
      [key, "NSE_INDEX|Nifty Smallcap 100", "NSE_INDEX|NIFTY SMALLCAP 100",
       "NSE_INDEX|Nifty Smallcap 250", "NSE_INDEX|NIFTY SMLCAP 100"]
    else if Contains(Upper(symbol), "MIDCAP") then
      [key, "NSE_INDEX|Nifty Midcap 100", "NSE_INDEX|NIFTY MIDCAP 100", "NSE_INDEX|Nifty Midcap 150"]
    else [key]
  }

  /** One fetcher-level call and its outcome (an auth failure is the
      exception _make_api_call lets through). */
  datatype Call = Call(request: Request, outcome: Result<Envelope, AuthError>)

  /** The attempt for `key` produced a usable quote entry. */
  predicate QuoteFound(c: Call, variants: seq<string>) {
    c.outcome.Success? && ReadQuote(c.outcome.value, variants).Some?
  }

  /** The quote requests made while walking `keys`: one per key in order,
      every one but the last without a usable entry. */
  ghost predicate QuoteWalk(log: seq<Call>, keys: seq<string>, variants: string -> seq<string>) {
    |log| <= |keys| &&
    (forall j :: 0 <= j < |log| ==> log[j].request == QuoteRequest(keys[j])) &&
    (forall j :: 0 <= j < |log| - 1 ==> !QuoteFound(log[j], variants(keys[j])))
  }

  /** A walk with no answer so far, extended by the next candidate's call. */
  lemma QuoteWalkSnoc(log: seq<Call>, c: Call, keys: seq<string>, variants: string -> seq<string>)
    requires |log| < |keys| && c.request == QuoteRequest(keys[|log|])
    requires forall j :: 0 <= j < |log| ==> log[j].request == QuoteRequest(keys[j])
    requires forall j :: 0 <= j < |log| ==> !QuoteFound(log[j], variants(keys[j]))
    ensures QuoteWalk(log + [c], keys, variants)
    ensures forall j :: 0 <= j < |log + [c]| ==> (log + [c])[j].request == QuoteRequest(keys[j])
  {
  }

  /** The spot summary read from a call that found an entry for `key`. */
  function SpotQuoteOf(symbol: string, c: Call, key: string): SpotQuote
    requires QuoteFound(c, SpotVariants(key))
  {
    QuoteSummary(symbol, ReadQuote(c.outcome.value, SpotVariants(key)).value.1)
  }

  /** How a spot-quote walk over the candidates of `key` ends: the last
      request found an entry exactly when there is a result; without one
      every candidate was tried; a hit on an alternative candidate is
      remembered under `key`. */
  ghost predicate SpotWalkOutcome(symbol: string, key: string, walk: seq<Call>, r: Option<SpotQuote>,
                                  keyMap0: map<string, string>, keyMap: map<string, string>) {
    var cands := QuoteCandidates(key, symbol);
    QuoteWalk(walk, cands, SpotVariants) && walk != [] &&
    (r.Some? <==> QuoteFound(walk[|walk| - 1], SpotVariants(cands[|walk| - 1]))) &&
    (r.None? ==> |walk| == |cands| && keyMap == keyMap0) &&
    (r.Some? ==> r.value == SpotQuoteOf(symbol, walk[|walk| - 1], cands[|walk| - 1]) &&
                 keyMap == if cands[|walk| - 1] == key then keyMap0 else keyMap0[key := cands[|walk| - 1]])
  }

  /** A walk that stops at its first hit. */
  lemma SpotWalkHit(symbol: string, key: string, walk: seq<Call>, q: Option<(string, QuoteDetails)>,
                    keyMap0: map<string, string>)
    requires var cands := QuoteCandidates(key, symbol);
      0 < |walk| <= |cands| && QuoteWalk(walk, cands, SpotVariants) &&
      QuoteFound(walk[|walk| - 1], SpotVariants(cands[|walk| - 1])) &&
      q == ReadQuote(walk[|walk| - 1].outcome.value, SpotVariants(cands[|walk| - 1]))
    ensures var cands := QuoteCandidates(key, symbol);
      SpotWalkOutcome(symbol, key, walk, Some(QuoteSummary(symbol, q.value.1)), keyMap0,
                      if cands[|walk| - 1] != key then keyMap0[key := cands[|walk| - 1]] else keyMap0)
  {
  }

  /** A walk that tried every candidate without a hit. */
  lemma SpotWalkMiss(symbol: string, key: string, walk: seq<Call>, keyMap0: map<string, string>)
    requires var cands := QuoteCandidates(key, symbol);
      |walk| == |cands| &&
      (forall j :: 0 <= j < |walk| ==> walk[j].request == QuoteRequest(cands[j])) &&
      (forall j :: 0 <= j < |walk| ==> !QuoteFound(walk[j], SpotVariants(cands[j])))
    ensures SpotWalkOutcome(symbol, key, walk, None, keyMap0, keyMap0)
  {
  }

  // ------------------------------------------------------------ futures

  /** (expiry 00:00 - now).days, given today's date and the seconds
      already elapsed today. */
  function DaysToExpiry(expiry: Date, today: Date, secondsIntoDay: real): int
    requires ValidDate(expiry) && ValidDate(today)
  {
    Ordinal(expiry) - Ordinal(today) - (if secondsIntoDay > 0.0 then 1 else 0)
  }

  datatype FuturesQuote = FuturesQuote(basis: BasisResult, oi: Option<int>, volume: Option<int>)

  /** The keys get_futures_data tries for an expiry: those built from the
      resolved futures contract (FUTIDX for a name containing "Nifty",
      FUTSTK otherwise) and the constructed NSE_FO ids. */
  function FuturesKeys(master: Master, symbol: string, expiry: Date): (keys: seq<string>)
    requires 1 <= expiry.month <= 12
    ensures 2 <= |keys| <= 4
  {
    var category := if IsIndexName(symbol) then FutIdx else FutStk;
    FuturesCandidateKeys(GetInstrumentKey(master, symbol, ListType(category), Some(expiry), None, None), symbol, expiry)
  }

  /** The price a get_spot_price call reads from the request it made;
      none when it made none or the request failed. */
  function SpotResult(made: seq<Call>): Option<real> {
    if |made| == 1 && made[0].request.QuoteRequest? && made[0].outcome.Success? then
      ReadSpotPrice(made[0].outcome.value, made[0].request.key).price
    else None
  }

  /** The cache after that call: a response key that differs from the
      requested one is recorded under it. */
  function SpotCache(keyMap: map<string, string>, made: seq<Call>): map<string, string> {
    if |made| == 1 && made[0].request.QuoteRequest? && made[0].outcome.Success? &&
       ReadSpotPrice(made[0].outcome.value, made[0].request.key).alias.Some?
    then keyMap[made[0].request.key := ReadSpotPrice(made[0].outcome.value, made[0].request.key).alias.value]
    else keyMap
  }

  /** get_spot_price makes one quote request, for the key it resolves
      with the cache as it is, or none when no key resolves. */
  predicate SpotCall(master: Master, keyMap: map<string, string>, symbol: string, made: seq<Call>) {
    match SpotRequestKey(master, keyMap, symbol, false)
    case None => made == []
    case Some(key) => |made| == 1 && made[0].request == QuoteRequest(key)
  }

  /** One key of get_futures_data: its quote request and the requests of
      the spot-price fetch it triggered. */
  datatype FuturesAttempt = FuturesAttempt(quote: Call, spotCalls: seq<Call>)

  /** The entry get_futures_data reads from the answer for `key`. */
  function FuturesEntry(c: Call, key: string): Option<QuoteDetails> {
    if c.outcome.Success? && ReadQuote(c.outcome.value, FuturesVariants(key)).Some? then
      Some(ReadQuote(c.outcome.value, FuturesVariants(key)).value.1)
    else None
  }

  /** The attempt for `key` gives a result: an entry with a truthy
      last_price, and a truthy spot price. */
  predicate FuturesHit(a: FuturesAttempt, key: string) {
    FuturesEntry(a.quote, key).Some? && Nonzero(FuturesEntry(a.quote, key).value.LastPrice()) &&
    Nonzero(SpotResult(a.spotCalls))
  }

  /** The futures figures of a successful attempt. */
  function FuturesQuoteOf(a: FuturesAttempt, key: string, days: int): FuturesQuote
    requires FuturesHit(a, key)
  {
    var d := FuturesEntry(a.quote, key).value;
    FuturesQuote(FuturesBasis(d.LastPrice().value, SpotResult(a.spotCalls).value, days), d.oi, d.volume)
  }

  /** Every request the attempts made, in order. */
  function AttemptCalls(attempts: seq<FuturesAttempt>): seq<Call> {
    if attempts == [] then []
    else
      var a := attempts[|attempts| - 1];
      AttemptCalls(attempts[..|attempts| - 1]) + [a.quote] + a.spotCalls
  }

  /** The cache after the attempts' spot-price fetches. */
  function CacheAfter(keyMap: map<string, string>, attempts: seq<FuturesAttempt>): map<string, string> {
    if attempts == [] then keyMap
    else SpotCache(CacheAfter(keyMap, attempts[..|attempts| - 1]), attempts[|attempts| - 1].spotCalls)
  }

  /** One attempt as get_futures_data makes it: the quote request for
      `key`, then a spot-price fetch exactly when an entry was found. */
  predicate AttemptFor(a: FuturesAttempt, key: string, master: Master, symbol: string, keyMap: map<string, string>) {
    a.quote.request == QuoteRequest(key) &&
    (FuturesEntry(a.quote, key).None? ==> a.spotCalls == []) &&
    (FuturesEntry(a.quote, key).Some? ==> SpotCall(master, keyMap, symbol, a.spotCalls))
  }

  /** The attempts follow the keys in order, each with the cache the
      earlier ones left, and all but the last give no result. */
  ghost predicate FuturesWalk(attempts: seq<FuturesAttempt>, keys: seq<string>, master: Master, symbol: string,
                              keyMap: map<string, string>) {
    |attempts| <= |keys| &&
    (forall j :: 0 <= j < |attempts| ==> AttemptFor(attempts[j], keys[j], master, symbol, CacheAfter(keyMap, attempts[..j]))) &&
    (forall j :: 0 <= j < |attempts| - 1 ==> !FuturesHit(attempts[j], keys[j]))
  }

  lemma CallsAppend(log: seq<Call>, made: seq<Call>, c: Call, more: seq<Call>)
    ensures log + made + [c] + more == log + (made + [c] + more)
  {
  }

  lemma CallsSnoc(log: seq<Call>, made: seq<Call>, c: Call)
    ensures log + made + [c] == log + (made + [c])
  {
  }

  /** The calls and the cache after one more attempt. */
  lemma AttemptsSnoc(attempts: seq<FuturesAttempt>, a: FuturesAttempt, keyMap: map<string, string>)
    ensures (attempts + [a])[..|attempts|] == attempts
    ensures AttemptCalls(attempts + [a]) == AttemptCalls(attempts) + [a.quote] + a.spotCalls
    ensures CacheAfter(keyMap, attempts + [a]) == SpotCache(CacheAfter(keyMap, attempts), a.spotCalls)
  {
    assert (attempts + [a])[..|attempts|] == attempts;
  }

  /** A walk extended by one more attempt without a result so far. */
  lemma FuturesWalkExtend(attempts: seq<FuturesAttempt>, a: FuturesAttempt, keys: seq<string>, master: Master,
                          symbol: string, keyMap: map<string, string>)
    requires FuturesWalk(attempts, keys, master, symbol, keyMap) && |attempts| < |keys|
    requires forall j :: 0 <= j < |attempts| ==> !FuturesHit(attempts[j], keys[j])
    requires AttemptFor(a, keys[|attempts|], master, symbol, CacheAfter(keyMap, attempts))
    ensures FuturesWalk(attempts + [a], keys, master, symbol, keyMap)
    ensures AttemptCalls(attempts + [a]) == AttemptCalls(attempts) + [a.quote] + a.spotCalls
    ensures CacheAfter(keyMap, attempts + [a]) == SpotCache(CacheAfter(keyMap, attempts), a.spotCalls)
  {
    var ext := attempts + [a];
    AttemptsSnoc(attempts, a, keyMap);
    forall j | 0 <= j < |ext|
      ensures AttemptFor(ext[j], keys[j], master, symbol, CacheAfter(keyMap, ext[..j]))
    {
      if j < |attempts| {
        assert ext[..j] == attempts[..j] && ext[j] == attempts[j];
      }
    }
    forall j | 0 <= j < |ext| - 1 ensures !FuturesHit(ext[j], keys[j]) {
      assert ext[j] == attempts[j];
    }
  }

  // ------------------------------------------------------- option chain

  /** The keys get_option_chain tries in turn while the answer is not a
      success: the first key, its colon form for an "NSE_EQ" key with a
      "|", and "NSE_EQ|<symbol>" unless the symbol is a named index. */
  function ChainRetryKeys(key: string, symbol: string): (keys: seq<string>)
    ensures 1 <= |keys| <= 3 && keys[0] == key
    ensures (symbol == "Nifty 50" || symbol == "Bank Nifty") && !(Contains(key, "NSE_EQ") && Contains(key, "|")) ==> keys == [key]
    ensures symbol != "Nifty 50" && symbol != "Bank Nifty" ==> keys[|keys| - 1] == "NSE_EQ|" + symbol
  {
    [key] + (if Contains(key, "NSE_EQ") && Contains(key, "|") then [ReplaceChar(key, '|', ':')] else [])
          + (if symbol != "Nifty 50" && symbol != "Bank Nifty" then ["NSE_EQ|" + symbol] else [])
  }

  /** The retry keys position by position. */
  lemma ChainRetryKeysAt(key: string, symbol: string)
    ensures var keys := ChainRetryKeys(key, symbol);
      var colon := Contains(key, "NSE_EQ") && Contains(key, "|");
      var equity := symbol != "Nifty 50" && symbol != "Bank Nifty";
      |keys| == 1 + (if colon then 1 else 0) + (if equity then 1 else 0) &&
      (colon ==> keys[1] == ReplaceChar(key, '|', ':')) &&
      (equity ==> keys[|keys| - 1] == "NSE_EQ|" + symbol)
  {
  }

  predicate Unanswered(c: Call) {
    c.outcome.Success? && c.outcome.value.status != StatusSuccess
  }

  /** The chain requests made: a prefix of the retry keys, each but the
      last left unanswered, stopping early only at a success or an auth
      failure. */
  ghost predicate ChainAttempts(log: seq<Call>, keys: seq<string>, expiry: Date) {
    1 <= |log| <= |keys| &&
    (forall j :: 0 <= j < |log| ==> log[j].request == ChainRequest(keys[j], expiry)) &&
    (forall j :: 0 <= j < |log| - 1 ==> Unanswered(log[j])) &&
    (|log| < |keys| ==> !Unanswered(log[|log| - 1]))
  }

  function ChainItemsOf(e: Envelope): seq<ChainItem> {
    if e.data.ChainData? then e.data.items else []
  }

  /** `data["data"]` is walked as a list of chain items; a non-empty quote
      object there is walked by its keys, and `item.get` on a key string
      raises AttributeError. */
  predicate ChainDataMalformed(e: Envelope) {
    e.data.Quotes? && e.data.entries != []
  }

  function StrikeRank(r: Row): Rank {
    Rank(0, 0, 0, r.strike)
  }

  /** The table get_option_chain returns: rows sorted by strike, then the
      liquidity filter (an empty table when no item has a strike). */
  function ChainRows(items: seq<ChainItem>, spot: real, maxPct: real): seq<Row> {
    var rows := ShapedRows(items);
    if rows == [] then [] else FilterLiquidStrikes(SortBy(rows, StrikeRank), spot, maxPct)
  }

  lemma {:induction false} SubsequenceMembers<T>(a: seq<T>, b: seq<T>)
    requires IsSubsequence(a, b)
    ensures forall i :: 0 <= i < |a| ==> a[i] in b
    decreases |b|
  {
    if a != [] && b != [] {
      if a[0] == b[0] && IsSubsequence(a[1..], b[1..]) {
        SubsequenceMembers(a[1..], b[1..]);
        forall i | 0 < i < |a| ensures a[i] in b { assert a[i] == a[1..][i - 1]; }
      } else {
        SubsequenceMembers(a, b[1..]);
      }
    }
  }

  lemma {:induction false} SubsequenceSorted<T>(a: seq<T>, b: seq<T>, rank: T -> Rank)
    requires IsSubsequence(a, b) && SortedBy(b, rank)
    ensures SortedBy(a, rank)
    decreases |b|
  {
    if a != [] && b != [] {
      assert SortedBy(b[1..], rank);
      if a[0] == b[0] && IsSubsequence(a[1..], b[1..]) {
        SubsequenceSorted(a[1..], b[1..], rank);
        SubsequenceMembers(a[1..], b[1..]);
        forall i, j | 0 <= i < j < |a| ensures RankLe(rank(a[i]), rank(a[j])) {
          if i == 0 {
            assert a[j] == a[1..][j - 1];
            var k :| 0 <= k < |b[1..]| && b[1..][k] == a[j];
            assert b[k + 1] == a[j];
          } else {
            assert a[i] == a[1..][i - 1] && a[j] == a[1..][j - 1];
          }
        }
      } else {
        SubsequenceSorted(a, b[1..], rank);
      }
    }
  }

  /** The returned chain is in strike order, every row is near spot and
      liquid, and every row comes from an item of the answer. */
  lemma ChainRowsSound(items: seq<ChainItem>, spot: real, maxPct: real)
    ensures var rows := ChainRows(items, spot, maxPct);
      (forall i, j :: 0 <= i < j < |rows| ==> rows[i].strike <= rows[j].strike) &&
      (forall i :: 0 <= i < |rows| ==> LiquidNear(rows[i], spot, maxPct) && RowFrom(items, rows[i]))
  {
    var shaped := ShapedRows(items);
    ShapedRowsMembers(items);
    if shaped != [] {
      var sorted := SortBy(shaped, StrikeRank);
      var rows := FilterLiquidStrikes(sorted, spot, maxPct);
      SubsequenceSorted(rows, sorted, StrikeRank);
      SubsequenceMembers(rows, sorted);
      forall i, j | 0 <= i < j < |rows| ensures rows[i].strike <= rows[j].strike {
        assert RankLe(StrikeRank(rows[i]), StrikeRank(rows[j]));
      }
      forall i | 0 <= i < |rows| ensures LiquidNear(rows[i], spot, maxPct) && RowFrom(items, rows[i]) {
        assert rows[i] in multiset(shaped);
      }
    }
  }

  datatype ChainError = ChainAuthFailed(error: AuthError) | ChainRequestFailed | SpotUnavailable | ChainMalformed

  datatype OptionChain = OptionChain(rows: seq<Row>, spot: real)

  // --------------------------------------------------------- the class

  class UpstoxFOData {
    const auth: UpstoxAuth
    const master: Master
    /** The answer to the n-th request sent, with the bearer token used. */
    const api: (Request, string, nat) -> Envelope
    /** The clock, callback and token endpoint seen by the n-th token request. */
    const authEnv: nat -> AuthEnv

    var lastResponse: Option<Envelope>
    /** Requested key -> key found in a response. */
    var keyMap: map<string, string>
    var requestsSent: nat
    var tokenRequests: nat
    ghost var events: seq<Event>
    ghost var calls: seq<Call>
    /** The events each logged call caused, call by call. */
    ghost var traces: seq<seq<Event>>

    /** The request counter counts the sends, and every send got the API's
        answer for its ordinal. */
    ghost predicate Sound()
      reads this`requestsSent, this`events
    {
      requestsSent == Sends(events) && Answered(events, api)
    }

    /** Sound, and the log is the calls' traces of the events in order. */
    ghost predicate Valid()
      reads this`requestsSent, this`events, this`traces, this`calls
    {
      Sound() && LogMatches(events, traces, calls)
    }

    constructor (auth: UpstoxAuth, master: Master, api: (Request, string, nat) -> Envelope, authEnv: nat -> AuthEnv)
      ensures this.auth == auth && this.master == master && this.api == api && this.authEnv == authEnv
      ensures lastResponse.None? && keyMap == map[] && requestsSent == 0 && tokenRequests == 0
      ensures events == [] && calls == [] && Valid()
    {
      this.auth := auth;
      this.master := master;
      this.api := api;
      this.authEnv := authEnv;
      lastResponse := None;
      keyMap := map[];
      requestsSent := 0;
      tokenRequests := 0;
      events := [];
      calls := [];
      traces := [];
    }

    /** get_headers: one token request. */
    method FetchToken() returns (t: Result<string, AuthError>)
      requires Sound()
      modifies this, auth
      ensures Sound() && traces == old(traces)
      ensures t == TokenStep(old(auth.tokenFile), authEnv(old(tokenRequests))).0
      ensures auth.tokenFile == TokenStep(old(auth.tokenFile), authEnv(old(tokenRequests))).1
      ensures events == old(events) + [TokenFetched(t)] && tokenRequests == old(tokenRequests) + 1
      ensures calls == old(calls) && keyMap == old(keyMap) && lastResponse == old(lastResponse)
      ensures requestsSent == old(requestsSent)
    {
      t := auth.GetAccessToken(authEnv(tokenRequests));
      tokenRequests := tokenRequests + 1;
      SendsSnoc(events, TokenFetched(t));
      AnsweredSnoc(events, TokenFetched(t), api);
      events := events + [TokenFetched(t)];
    }

    /** requests.get with the given token; the answer is kept in last_response. */
    method Send(req: Request, token: string) returns (e: Envelope)
      requires Sound()
      modifies this
      ensures Sound() && traces == old(traces)
      ensures e == api(req, token, old(requestsSent)) && requestsSent == old(requestsSent) + 1
      ensures events == old(events) + [Sent(req, token, e)] && lastResponse == Some(e)
      ensures calls == old(calls) && keyMap == old(keyMap) && tokenRequests == old(tokenRequests)
    {
      e := api(req, token, requestsSent);
      requestsSent := requestsSent + 1;
      lastResponse := Some(e);
      SendsSnoc(events, Sent(req, token, e));
      AnsweredSnoc(events, Sent(req, token, e), api);
      events := events + [Sent(req, token, e)];
    }

    /** The retry branch of _make_api_call: the token is invalidated, a
        fresh one requested and, when that succeeds, the request sent again. */
    method Retry(req: Request) returns (r: Result<Envelope, AuthError>, ghost sub: seq<Event>)
      requires Sound()
      modifies this, auth
      ensures Sound() && traces == old(traces)
      ensures events == old(events) + sub && 2 <= |sub| <= 3
      ensures sub[0] == TokenInvalidated && sub[1].TokenFetched?
      ensures sub[1].result == TokenStep(None, authEnv(old(tokenRequests))).0
      ensures |sub| == 2 <==> sub[1].result.Failure?
      ensures |sub| == 2 ==> r == Failure(sub[1].result.error) && lastResponse == old(lastResponse)
      ensures |sub| == 3 ==>
        sub[2].Sent? && sub[2].request == req && sub[2].token == sub[1].result.value &&
        r == Success(sub[2].response) && lastResponse == Some(sub[2].response)
      ensures |sub| == 3 ==> sub[2].response == api(req, sub[2].token, old(requestsSent))
      ensures requestsSent == old(requestsSent) + |sub| - 2
      ensures calls == old(calls) && keyMap == old(keyMap)
    {
      auth.InvalidateToken();
      SendsSnoc(events, TokenInvalidated);
      AnsweredSnoc(events, TokenInvalidated, api);
      events := events + [TokenInvalidated];
      var second := FetchToken();
      sub := [TokenInvalidated, TokenFetched(second)];
      if second.Failure? {
        r := Failure(second.error);
        return;
      }
      var data := Send(req, second.value);
      sub := sub + [Sent(req, second.value, data)];
      r := Success(data);
    }

    /** _make_api_call. */
    method MakeApiCall(req: Request) returns (r: Result<Envelope, AuthError>)
      requires Valid()
      modifies this, auth
      ensures |events| > |old(events)| && events[..|old(events)|] == old(events)
      ensures Valid() && traces == old(traces) + [events[|old(events)|..]]
      ensures ApiCallTrace(req, events[|old(events)|..], r)
      ensures events[|old(events)|] == TokenFetched(TokenStep(old(auth.tokenFile), authEnv(old(tokenRequests))).0)
      ensures var tr := events[|old(events)|..];
        (|tr| >= 2 ==> tr[1].Sent? && tr[1].response == api(req, tr[1].token, old(requestsSent))) &&
        (|tr| >= 4 ==> tr[3] == TokenFetched(TokenStep(None, authEnv(old(tokenRequests) + 1)).0)) &&
        (|tr| == 5 ==> tr[4].Sent? && tr[4].response == api(req, tr[4].token, old(requestsSent) + 1))
      ensures requestsSent == old(requestsSent) + Sends(events[|old(events)|..])
      ensures lastResponse == LatestResponse(events[|old(events)|..], old(lastResponse))
      ensures calls == old(calls) + [Call(req, r)] && keyMap == old(keyMap)
    {
      ghost var tr;
      r, tr := SendWithRetry(req);
      AppendSplit(old(events), tr);
      LogMatchesSnoc(old(events), traces, calls, tr, Call(req, r));
      calls := calls + [Call(req, r)];
      traces := traces + [tr];
    }

    /** The exchange of _make_api_call before it is logged: the token, the
        request and, after an invalid-token answer, the retry. */
    method SendWithRetry(req: Request) returns (r: Result<Envelope, AuthError>, ghost tr: seq<Event>)
      requires Sound()
      modifies this, auth
      ensures Sound() && events == old(events) + tr && ApiCallTrace(req, tr, r)
      ensures tr[0] == TokenFetched(TokenStep(old(auth.tokenFile), authEnv(old(tokenRequests))).0)
      ensures (|tr| >= 2 ==> tr[1].Sent? && tr[1].response == api(req, tr[1].token, old(requestsSent))) &&
        (|tr| >= 4 ==> tr[3] == TokenFetched(TokenStep(None, authEnv(old(tokenRequests) + 1)).0)) &&
        (|tr| == 5 ==> tr[4].Sent? && tr[4].response == api(req, tr[4].token, old(requestsSent) + 1))
      ensures requestsSent == old(requestsSent) + Sends(tr)
      ensures lastResponse == LatestResponse(tr, old(lastResponse))
      ensures calls == old(calls) && traces == old(traces) && keyMap == old(keyMap)
    {
      var first := FetchToken();
      tr := [TokenFetched(first)];
      if first.Failure? {
        r := Failure(first.error);
      } else {
        var data := Send(req, first.value);
        tr := tr + [Sent(req, first.value, data)];
        if IsInvalidTokenError(data) {
          ghost var sub;
          r, sub := Retry(req);
          tr := tr + sub;
          assert tr[2] == sub[0] && tr[3] == sub[1] && (|sub| == 3 ==> tr[4] == sub[2]);
        } else {
          r := Success(data);
        }
      }
      SendsOfShort(tr);
      LatestOfShort(tr, old(lastResponse));
    }

    /** One quote request through _make_api_call, as the fetchers see it:
        the call is logged, its answer is the API's, and the cache is
        untouched. */
    method QuoteCall(key: string) returns (resp: Result<Envelope, AuthError>)
      requires Valid()
      modifies this, auth
      ensures Valid()
      ensures calls == old(calls) + [Call(QuoteRequest(key), resp)] && keyMap == old(keyMap)
      ensures resp.Success? ==> exists t: string, n: nat :: resp.value == api(QuoteRequest(key), t, n)
    {
      resp := MakeApiCall(QuoteRequest(key));
      if resp.Success? {
        LoggedFromApi(events, traces, calls, api, |calls| - 1);
      }
    }

    /** get_spot_price: resolve the SPOT key (cached alias first, then the
        hard-coded fallbacks), send one quote request, read the price and
        cache the response key when it differs from the requested one. */
    method GetSpotPrice(symbol: string) returns (r: Option<real>)
      requires Valid()
      modifies this, auth
      ensures Valid()
      ensures SpotRequestKey(master, old(keyMap), symbol, false).None? ==>
        r.None? && calls == old(calls) && keyMap == old(keyMap) && requestsSent == old(requestsSent)
      ensures SpotRequestKey(master, old(keyMap), symbol, false).Some? ==>
        var key := SpotRequestKey(master, old(keyMap), symbol, false).value;
        |calls| == |old(calls)| + 1 && calls[..|old(calls)|] == old(calls) &&
        calls[|old(calls)|].request == QuoteRequest(key) &&
        var out := calls[|old(calls)|].outcome;
        (out.Failure? ==> r.None? && keyMap == old(keyMap)) &&
        (out.Success? ==>
          var s := ReadSpotPrice(out.value, key);
          r == s.price && keyMap == if s.alias.Some? then old(keyMap)[key := s.alias.value] else old(keyMap))
      ensures |calls| >= |old(calls)| && calls[..|old(calls)|] == old(calls)
      ensures SpotCall(master, old(keyMap), symbol, calls[|old(calls)|..])
      ensures r == SpotResult(calls[|old(calls)|..]) && keyMap == SpotCache(old(keyMap), calls[|old(calls)|..])
      ensures |calls| == |old(calls)| + 1 && calls[|old(calls)|].outcome.Success? ==>
        exists t: string, n: nat :: calls[|old(calls)|].outcome.value == api(calls[|old(calls)|].request, t, n)
    {
      var key := SpotRequestKey(master, keyMap, symbol, false);
      if key.None? {
        return None;
      }
      var resp := QuoteCall(key.value);
      if resp.Failure? {
        return None;
      }
      var reading := ReadSpotPrice(resp.value, key.value);
      if reading.alias.Some? {
        keyMap := keyMap[key.value := reading.alias.value];
      }
      r := reading.price;
    }

    /** One quote request inside a candidate walk; an auth failure counts
        as a miss, as the walks catch every exception. */
    method TryQuote(key: string, variants: seq<string>) returns (q: Option<(string, QuoteDetails)>, ghost c: Call)
      requires Valid()
      modifies this, auth
      ensures Valid()
      ensures calls == old(calls) + [c] && c.request == QuoteRequest(key)
      ensures q.Some? <==> QuoteFound(c, variants)
      ensures q.Some? ==> q == ReadQuote(c.outcome.value, variants)
      ensures keyMap == old(keyMap)
      ensures c.outcome.Success? ==> exists t: string, n: nat :: c.outcome.value == api(c.request, t, n)
    {
      var resp := QuoteCall(key);
      c := Call(QuoteRequest(key), resp);
      q := if resp.Success? then ReadQuote(resp.value, variants) else None;
    }

    /** get_spot_quote: tries the candidates in order and stops at the
        first answer with a usable entry; a candidate other than the
        request key that works is cached under the request key. An auth
        failure skips to the next candidate. */
    method GetSpotQuote(symbol: string) returns (r: Option<SpotQuote>, ghost walk: seq<Call>)
      requires Valid()
      modifies this, auth
      ensures Valid()
      ensures calls == old(calls) + walk
      ensures SpotRequestKey(master, old(keyMap), symbol, true).None? ==>
        r.None? && walk == [] && keyMap == old(keyMap)
      ensures SpotRequestKey(master, old(keyMap), symbol, true).Some? ==>
        SpotWalkOutcome(symbol, SpotRequestKey(master, old(keyMap), symbol, true).value,
                        walk, r, old(keyMap), keyMap)
    {
      walk := [];
      var key := SpotRequestKey(master, keyMap, symbol, true);
      if key.None? {
        return None, walk;
      }
      r, walk := WalkSpotCandidates(symbol, key.value);
    }

    /** The candidate walk for a resolved request key, and the alias it
        leaves in the cache. */
    method WalkSpotCandidates(symbol: string, key: string) returns (r: Option<SpotQuote>, ghost walk: seq<Call>)
      requires Valid()
      modifies this, auth
      ensures Valid()
      ensures calls == old(calls) + walk
      ensures SpotWalkOutcome(symbol, key, walk, r, old(keyMap), keyMap)
    {
      var cands := QuoteCandidates(key, symbol);
      var q, i;
      q, i, walk := WalkQuotes(cands, SpotVariants);
      if q.Some? {
        SpotWalkHit(symbol, key, walk, q, keyMap);
        if cands[i] != key {
          keyMap := keyMap[key := cands[i]];
        }
        return Some(QuoteSummary(symbol, q.value.1)), walk;
      }
      SpotWalkMiss(symbol, key, walk, keyMap);
      r := None;
    }

    /** The candidate walk of get_spot_quote: one quote request per
        candidate in order, stopping at the first usable entry; `i` is the
        index of the candidate that answered, |keys| when none did. */
    method WalkQuotes(keys: seq<string>, variants: string -> seq<string>)
      returns (q: Option<(string, QuoteDetails)>, i: nat, ghost walk: seq<Call>)
      requires Valid()
      modifies this, auth
      ensures Valid()
      ensures calls == old(calls) + walk && keyMap == old(keyMap)
      ensures QuoteWalk(walk, keys, variants)
      ensures q.None? ==>
        i == |walk| == |keys| && forall j :: 0 <= j < |walk| ==> !QuoteFound(walk[j], variants(keys[j]))
      ensures q.Some? ==>
        i < |keys| && |walk| == i + 1 && QuoteFound(walk[i], variants(keys[i])) &&
        q == ReadQuote(walk[i].outcome.value, variants(keys[i]))
    {
      walk := [];
      i := 0;
      while i < |keys|
        invariant 0 <= i <= |keys| && |walk| == i
        invariant calls == old(calls) + walk && keyMap == old(keyMap) && Valid()
        invariant forall j :: 0 <= j < i ==> walk[j].request == QuoteRequest(keys[j])
        invariant forall j :: 0 <= j < i ==> !QuoteFound(walk[j], variants(keys[j]))
      {
        ghost var c;
        q, c := TryQuote(keys[i], variants(keys[i]));
        QuoteWalkSnoc(walk, c, keys, variants);
        CallsSnoc(old(calls), walk, c);
        walk := walk + [c];
        if q.Some? {
          return;
        }
        i := i + 1;
      }
      q := None;
    }

    /** get_futures_data: the expiry (given, or the next futures expiry),
        then each candidate key in turn; a found entry triggers a spot
        price fetch, and a truthy futures price with a truthy spot price
        gives the basis figures. A key whose request fails, even for want
        of a token, is skipped. */
    method GetFuturesData(symbol: string, expiry: Option<Date>, etype: ExpiryType,
                          today: Date, hour: int, secondsIntoDay: real)
      returns (r: Option<FuturesQuote>, ghost exp: Date, ghost attempts: seq<FuturesAttempt>)
      requires ValidDate(today) && WellFormedMaster(master)
      requires expiry.Some? ==> ValidDate(expiry.value)
      requires Valid()
      modifies this, auth
      ensures Valid()
      ensures ValidDate(exp) && (expiry.Some? ==> exp == expiry.value)
      ensures expiry.None? ==> IsNextExpiry(master, symbol, FuturesCategory, etype, today, hour, exp)
      ensures calls == old(calls) + AttemptCalls(attempts) && keyMap == CacheAfter(old(keyMap), attempts)
      ensures FuturesWalk(attempts, FuturesKeys(master, symbol, exp), master, symbol, old(keyMap))
      ensures r.None? ==>
        var keys := FuturesKeys(master, symbol, exp);
        |attempts| == |keys| && forall j :: 0 <= j < |attempts| ==> !FuturesHit(attempts[j], keys[j])
      ensures r.Some? ==>
        var keys := FuturesKeys(master, symbol, exp);
        attempts != [] && FuturesHit(attempts[|attempts| - 1], keys[|attempts| - 1]) &&
        r.value == FuturesQuoteOf(attempts[|attempts| - 1], keys[|attempts| - 1], DaysToExpiry(exp, today, secondsIntoDay))
      ensures r.Some? ==> r.value.basis.futuresPrice != 0.0 && r.value.basis.spotPrice != 0.0
    {
      var e := ChooseExpiry(symbol, expiry, FuturesCategory, etype, today, hour);
      exp := e;
      r, attempts := WalkFutures(symbol, FuturesKeys(master, symbol, e), DaysToExpiry(e, today, secondsIntoDay));
    }

    /** The expiry a fetcher uses: the one given, else the next one. */
    method ChooseExpiry(symbol: string, expiry: Option<Date>, category: InstrumentCategory, etype: ExpiryType,
                        today: Date, hour: int) returns (e: Date)
      requires ValidDate(today) && WellFormedMaster(master)
      ensures expiry.Some? ==> e == expiry.value
      ensures expiry.None? ==> ValidDate(e) && IsNextExpiry(master, symbol, category, etype, today, hour, e)
    {
      if expiry.Some? {
        e := expiry.value;
      } else {
        e := NextExpiry(master, symbol, category, etype, today, hour);
      }
    }

    /** The key loop of get_futures_data: one attempt per key in order,
        stopping at the first that gives a result. */
    method WalkFutures(symbol: string, keys: seq<string>, days: int)
      returns (r: Option<FuturesQuote>, ghost attempts: seq<FuturesAttempt>)
      requires Valid()
      modifies this, auth
      ensures Valid()
      ensures calls == old(calls) + AttemptCalls(attempts) && keyMap == CacheAfter(old(keyMap), attempts)
      ensures FuturesWalk(attempts, keys, master, symbol, old(keyMap))
      ensures r.None? ==> |attempts| == |keys| && forall j :: 0 <= j < |attempts| ==> !FuturesHit(attempts[j], keys[j])
      ensures r.Some? ==>
        attempts != [] && FuturesHit(attempts[|attempts| - 1], keys[|attempts| - 1]) &&
        r.value == FuturesQuoteOf(attempts[|attempts| - 1], keys[|attempts| - 1], days)
    {
      attempts := [];
      var i := 0;
      while i < |keys|
        invariant 0 <= i <= |keys| && |attempts| == i
        invariant calls == old(calls) + AttemptCalls(attempts) && keyMap == CacheAfter(old(keyMap), attempts)
        invariant FuturesWalk(attempts, keys, master, symbol, old(keyMap)) && Valid()
        invariant forall j :: 0 <= j < i ==> !FuturesHit(attempts[j], keys[j])
      {
        ghost var a;
        r, a := TryFutures(symbol, keys[i], days);
        FuturesWalkExtend(attempts, a, keys, master, symbol, old(keyMap));
        CallsAppend(old(calls), AttemptCalls(attempts), a.quote, a.spotCalls);
        attempts := attempts + [a];
        if r.Some? {
          return;
        }
        i := i + 1;
      }
      r := None;
    }

    /** One key of get_futures_data: the quote request, the entry read
        from a successful answer and, when there is one, the spot price. */
    method TryFutures(symbol: string, key: string, days: int) returns (q: Option<FuturesQuote>, ghost a: FuturesAttempt)
      requires Valid()
      modifies this, auth
      ensures Valid()
      ensures calls == old(calls) + [a.quote] + a.spotCalls
      ensures AttemptFor(a, key, master, symbol, old(keyMap)) && keyMap == SpotCache(old(keyMap), a.spotCalls)
      ensures q.Some? <==> FuturesHit(a, key)
      ensures q.Some? ==> q.value == FuturesQuoteOf(a, key, days)
      ensures a.quote.outcome.Success? ==> exists t: string, n: nat :: a.quote.outcome.value == api(a.quote.request, t, n)
    {
      var resp := QuoteCall(key);
      a := FuturesAttempt(Call(QuoteRequest(key), resp), []);
      if resp.Failure? {
        return None, a;
      }
      var entry := ReadQuote(resp.value, FuturesVariants(key));
      if entry.None? {
        return None, a;
      }
      ghost var mid := calls;
      var spot := GetSpotPrice(symbol);
      a := FuturesAttempt(a.quote, calls[|mid|..]);
      assert calls == mid + a.spotCalls;
      var details := entry.value.1;
      if Nonzero(details.LastPrice()) && Nonzero(spot) {
        q := Some(FuturesQuote(FuturesBasis(details.LastPrice().value, spot.value, days), details.oi, details.volume));
      } else {
        q := None;
      }
    }

    /** One option-chain request through _make_api_call, as the fetcher
        sees it: the call is logged and the cache is untouched. */
    method ChainCall(key: string, e: Date) returns (resp: Result<Envelope, AuthError>)
      requires Valid()
      modifies this, auth
      ensures Valid()
      ensures calls == old(calls) + [Call(ChainRequest(key, e), resp)] && keyMap == old(keyMap)
      ensures resp.Success? ==> exists t: string, n: nat :: resp.value == api(ChainRequest(key, e), t, n)
    {
      resp := MakeApiCall(ChainRequest(key, e));
      if resp.Success? {
        LoggedFromApi(events, traces, calls, api, |calls| - 1);
      }
    }

    /** The chain request of get_option_chain with its retries: the colon
        form of an "NSE_EQ|" key, then "NSE_EQ|<symbol>" for a symbol that
        is not a named index, each sent only while no success came back.
        An auth failure ends the attempts. */
    method RequestChain(key: string, symbol: string, e: Date) returns (resp: Result<Envelope, AuthError>, ghost log: seq<Call>)
      requires Valid()
      modifies this, auth
      ensures Valid()
      ensures calls == old(calls) + log && keyMap == old(keyMap)
      ensures ChainAttempts(log, ChainRetryKeys(key, symbol), e) && resp == log[|log| - 1].outcome
    {
      ghost var keys := ChainRetryKeys(key, symbol);
      ChainRetryKeysAt(key, symbol);
      resp := ChainCall(key, e);
      log := [Call(ChainRequest(key, e), resp)];
      if resp.Failure? || resp.value.status == StatusSuccess {
        return;
      }
      if Contains(key, "NSE_EQ") && Contains(key, "|") {
        var k := ReplaceChar(key, '|', ':');
        resp := ChainCall(k, e);
        CallsSnoc(old(calls), log, Call(ChainRequest(k, e), resp));
        log := log + [Call(ChainRequest(k, e), resp)];
        if resp.Failure? || resp.value.status == StatusSuccess {
          return;
        }
      }
      if symbol != "Nifty 50" && symbol != "Bank Nifty" {
        var k := "NSE_EQ|" + symbol;
        resp := ChainCall(k, e);
        CallsSnoc(old(calls), log, Call(ChainRequest(k, e), resp));
        log := log + [Call(ChainRequest(k, e), resp)];
      }
    }

    /** get_option_chain: the chain request with its retries, then the
        spot price (required), then the shaped, sorted and filtered rows. */
    method GetOptionChain(symbol: string, expiry: Option<Date>, maxPct: real, etype: ExpiryType,
                          today: Date, hour: int)
      returns (r: Result<OptionChain, ChainError>, ghost exp: Date, ghost log: seq<Call>, ghost spotCalls: seq<Call>)
      requires ValidDate(today) && WellFormedMaster(master)
      requires Valid()
      modifies this, auth
      ensures Valid()
      ensures expiry.Some? ==> exp == expiry.value
      ensures calls == old(calls) + log + spotCalls && |spotCalls| <= 1
      ensures ChainAttempts(log, ChainRetryKeys(ChainKey(master, old(keyMap), symbol), symbol), exp)
      ensures r == Failure(ChainRequestFailed) <==> Unanswered(log[|log| - 1])
      ensures (r.Failure? && r.error.ChainAuthFailed?) <==> log[|log| - 1].outcome.Failure?
      ensures r.Failure? && r.error.ChainAuthFailed? ==> log[|log| - 1].outcome == Failure(r.error.error)
      ensures r.Success? ==>
        var answer := log[|log| - 1].outcome;
        answer.Success? && answer.value.status == StatusSuccess && |spotCalls| == 1 &&
        r.value.rows == ChainRows(ChainItemsOf(answer.value), r.value.spot, maxPct)
      ensures expiry.None? ==> IsNextExpiry(master, symbol, OptionsCategory, etype, today, hour, exp)
      // the spot price is fetched once the chain answer is a success
      ensures var answer := log[|log| - 1].outcome;
        if answer.Success? && answer.value.status == StatusSuccess then
          SpotCall(master, old(keyMap), symbol, spotCalls) && keyMap == SpotCache(old(keyMap), spotCalls)
        else spotCalls == [] && keyMap == old(keyMap)
      ensures r == Failure(SpotUnavailable) <==>
        log[|log| - 1].outcome.Success? && log[|log| - 1].outcome.value.status == StatusSuccess && SpotResult(spotCalls).None?
      ensures r == Failure(ChainMalformed) <==>
        log[|log| - 1].outcome.Success? && log[|log| - 1].outcome.value.status == StatusSuccess &&
        SpotResult(spotCalls).Some? && ChainDataMalformed(log[|log| - 1].outcome.value)
      ensures r.Success? ==> SpotResult(spotCalls) == Some(r.value.spot)
    {
      var e := ChooseExpiry(symbol, expiry, OptionsCategory, etype, today, hour);
      exp := e;
      var key := ChainKey(master, keyMap, symbol);
      var resp;
      resp, log := RequestChain(key, symbol, e);
      spotCalls := [];
      if resp.Failure? {
        return Failure(ChainAuthFailed(resp.error)), exp, log, spotCalls;
      }
      if resp.value.status != StatusSuccess {
        return Failure(ChainRequestFailed), exp, log, spotCalls;
      }
      r, spotCalls := ChainFromAnswer(symbol, resp.value, maxPct);
    }

    /** get_option_chain after a successful chain answer: the spot price
        (required), then the shaped, sorted and filtered rows. */
    method ChainFromAnswer(symbol: string, data: Envelope, maxPct: real)
      returns (r: Result<OptionChain, ChainError>, ghost spotCalls: seq<Call>)
      requires Valid()
      modifies this, auth
      ensures Valid()
      ensures calls == old(calls) + spotCalls
      ensures SpotCall(master, old(keyMap), symbol, spotCalls) && keyMap == SpotCache(old(keyMap), spotCalls)
      ensures r == Failure(SpotUnavailable) <==> SpotResult(spotCalls).None?
      ensures r == Failure(ChainMalformed) <==> SpotResult(spotCalls).Some? && ChainDataMalformed(data)
      ensures r.Failure? ==> r == Failure(SpotUnavailable) || r == Failure(ChainMalformed)
      ensures r.Success? ==>
        SpotResult(spotCalls) == Some(r.value.spot) && r.value.rows == ChainRows(ChainItemsOf(data), r.value.spot, maxPct)
    {
      ghost var mid := calls;
      var spot := GetSpotPrice(symbol);
      spotCalls := calls[|mid|..];
      assert calls == mid + spotCalls;
      if spot.None? {
        return Failure(SpotUnavailable), spotCalls;
      }
      if ChainDataMalformed(data) {
        return Failure(ChainMalformed), spotCalls;
      }
      var rows := ShapeChain(ChainItemsOf(data));
      if rows == [] {
        return Success(OptionChain([], spot.value)), spotCalls;
      }
      var sorted := SortBy(rows, StrikeRank);
      r := Success(OptionChain(FilterLiquidStrikes(sorted, spot.value, maxPct), spot.value));
    }
  }
}
