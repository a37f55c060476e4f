# MyMarketTerminal options and futures engine, in Dafny

This project models the core of MyMarketTerminal, a market terminal for
Indian equities and derivatives. The model covers eight parts:

- **Instrument-key resolution.** A ticker such as "Nifty 50" or "TCS" is
  normalised and looked up in an instrument master (application symbol →
  SPOT descriptor and four contract lists). The result is the exchange
  instrument key of the SPOT entry, or of the first contract matching an
  expiry, strike and option type. Separate hard-coded fallbacks cover
  spot and futures keys.
- **Token lifecycle (`UpstoxAuth`).** With no token file, the user is
  authorised and the code is exchanged for a token that expires 24 hours
  later. A fresh stored token is handed out. An expired one is deleted
  and authorisation repeats.
- **API calls (`UpstoxFOData`).** Each call sends a request with a fresh
  token and retries once, after invalidating the token, on error code
  UDAPI100050. The client keeps the latest response and a key cache. Each
  cache entry maps a requested instrument key to another key:
  - `get_spot_price` stores the key the quote response actually used;
  - `get_spot_quote` stores the candidate key whose request answered.

  A ghost invariant (`Valid`) ties the client's log to the API. Each
  logged call is the trace of events it caused, and every request sent
  got the API's answer for its token and ordinal.
- **Quote, futures and option-chain reading.** The candidate keys per
  request, the response-key walk, and the shaping of chain rows with the
  open-interest (OI) change rule.
- **Expiry resolution.** The earliest upcoming expiry in the master whose
  weekly or monthly flag fits the request. Failing that, a calendar rule:
  the next Tuesday for Nifty indices, otherwise the month's last Thursday.
  Both roll over after 15:00 on the day itself.
- **Chain analytics:**
  - the liquidity and at-the-money (ATM) strike filters;
  - the put/call ratio (PCR) and its sentiment bands;
  - max pain;
  - the greeks summary, which adds a `total_gamma` column to the chain in place;
  - OI support, resistance and build-ups;
  - the futures basis, its annualised carry and its bands.
- **The offline instrument-master builder (`preprocess_nse_data`).**
  Exchange records are matched to application tickers through an inverted
  symbol table. Each is filed as a SPOT descriptor (a primary one is never
  displaced) or appended to one of four contract lists. A final pass
  keeps the tickers holding anything and sorts each list by
  (expiry, strike). `convert_decimals` is a separate structural walk.
- **Session state and fundamental rules.** The session store fills in
  defaults and normalises the active ticker. The fundamental scanner
  draws red flags and positive signals from fixed thresholds, and
  normalises the screener symbol.

Dafny modules follow the program's structure:

- `Wrappers`, `Text`, `Calendar` and `Sorting` are shared building blocks:
  options and results, string operations (ASCII case, Python whitespace), Gregorian dates with
  weekdays, and a stable insertion sort.
- `Instruments` is the master's data model.
- `KeyResolver`, `Auth`, `MarketData`, `Expiry`, `Chain` and `Analytics`
  model `upstox_fo_complete.py`.
- `Preprocess` and `JsonValues` model `preprocess_nse_data.py`.
- `SessionState` models `core/state_manager.py`.
- `Fundamentals` models `plugins/fundamental_scanner.py`.

State the source changes in place is state here too:

- `UpstoxAuth.tokenFile` is the token file.
- `UpstoxFOData` has `keyMap`, `lastResponse` and the request counters.
- `ChainFrame.totalGamma` is the column the greeks analysis adds.
- `StateManager.session` is the session dictionary.
- The record loop of the builder is a `while` loop over the records, updating the master.

Inputs stand in for the outside world:

- the clock (`today`, `hour`, `now`);
- the HTTP API, an oracle from request, bearer token and ordinal to response envelope;
- the browser authorisation code and the token endpoint's answer;
- the contents of the instrument and token files.

## Model

| member | source | states |
|---|---|---|
| KeyResolver.NormalizeSymbol | upstox_fo_complete.py:56-65 | "Nifty 50" → "^NSEI", "Bank Nifty" → "^NSEBANK", "Nifty Midcap 100" → "NIFTY_MIDCAP_100.NS"; other symbols are kept when they start with "^" or end with ".NS", else get ".NS" appended; the result always has one of those forms |
| KeyResolver.NormalizeIdempotent | upstox_fo_complete.py:56-65 | normalising twice equals normalising once |
| KeyResolver.EntryKey | upstox_fo_complete.py:67-73 | the normalised symbol is used when it is a master key, else the raw symbol when that is one, else nothing |
| KeyResolver.FindContract | upstox_fo_complete.py:83-95 | the index of the first contract in list order matching the query; none when no contract matches |
| KeyResolver.QueryFor | upstox_fo_complete.py:83-91 | the match query per instrument type; a strike of 0 counts as no strike (Python truthiness) |
| KeyResolver.GetInstrumentKey | upstox_fo_complete.py:52-98 | empty master or unknown symbol gives None; SPOT gives the SPOT entry's key; a list type with a complete query gives the key of the first contract in list order that matches it, None when none matches or the query is incomplete |
| KeyResolver.SpotFallbackKey | upstox_fo_complete.py:242-250 | a fallback key is an "NSE_INDEX\|" index id or "NSE_EQ\|symbol", never empty |
| KeyResolver.SpotFallbackNone | upstox_fo_complete.py:242-250 | there is no fallback exactly for a "^" symbol other than ^NSEI and ^NSEBANK that is neither a mid-cap nor, in the quote path, a small-cap name |
| KeyResolver.SpotRequestKey | upstox_fo_complete.py:235-250 | the master's SPOT key, replaced by the key it maps to when it is in the key cache; when that is missing or empty, the hard-coded fallback |
| KeyResolver.FuturesCandidateKeys | upstox_fo_complete.py:569-587 | four keys (resolved key, its ":" variant, the two NSE_FO trading-symbol forms) or, with no resolved key, the two NSE_FO forms; none empty |
| KeyResolver.FuturesKeysExample | upstox_fo_complete.py:575-587 | "Nifty 50" expiring 2025-01-30 gives NSE_FO\|NIFTY25JANFUT and NSE_FO:NIFTY25JANFUT |
| KeyResolver.ChainKey | upstox_fo_complete.py:449-463 | Nifty 50 and Bank Nifty map to their index ids; otherwise the SPOT key, replaced by its cached alias when it is non-empty and cached, and "NSE_EQ\|symbol" when that is missing or empty |
| KeyResolver.ChainKeyAgreesWithSpot | upstox_fo_complete.py:449-463 | beyond the two named indices, the chain request goes to the spot request's key whenever the symbol resolves to a non-empty SPOT key not cached as empty |
| Auth.IssuedRecord | upstox_fo_complete.py:150-154 | the stored record holds the token and expires_at = now + 86400, so it is fresh at issue |
| Auth.StoredTokenWhenFresh | upstox_fo_complete.py:162-178 | a stored token is returned, and the file left alone, exactly when it has not expired |
| Auth.ExpiredBehavesAsNoFile | upstox_fo_complete.py:173-176 | an expired record makes the call behave as if there were no token file; the record does not survive |
| Auth.SuccessLeavesFreshToken | upstox_fo_complete.py:162-178 | whenever a token is returned the file holds it, unexpired |
| Auth.MissingCodeFails | upstox_fo_complete.py:165-166 | with no file (or an expired one) and no auth code, the call fails with "Authorization failed" and no file exists |
| Auth.UpstoxAuth.ExchangeCodeForTokens | upstox_fo_complete.py:136-160 | an answer without access_token fails and leaves the file; otherwise the file becomes the issued record |
| Auth.UpstoxAuth.GetAccessToken | upstox_fo_complete.py:162-178 | outcome and new token file are one TokenStep transition of the old file |
| Auth.UpstoxAuth.InvalidateToken | upstox_fo_complete.py:180-187 | the token file no longer exists |
| MarketData.RetryBound | upstox_fo_complete.py:206-227 | at most two requests; a second only after an UDAPI100050 error and the token's invalidation; both carry the same request |
| MarketData.NoRetryOtherwise | upstox_fo_complete.py:218-227 | a first answer that is not the invalid-token error is returned after exactly one request |
| MarketData.ReturnsLatest | upstox_fo_complete.py:210-227 | the value returned is the latest response held in last_response |
| MarketData.UpstoxFOData.Retry | upstox_fo_complete.py:218-225 | invalidation, a fresh token request and, only when that succeeds, the same request again with the new token, whose answer is the API's answer to that request and becomes last_response and the result |
| MarketData.UpstoxFOData.MakeApiCall | upstox_fo_complete.py:206-227 | keeps Valid and logs one call whose trace is the events it appended; the trace is admissible (fetch token, send; on UDAPI100050 only: invalidate, fetch, send again); each answer is the API's answer to that request, token and ordinal, each token the token step of its file; counts the requests, updates last_response, leaves the key cache alone |
| MarketData.UpstoxFOData.SendWithRetry | upstox_fo_complete.py:206-227 | the events of one call before it is logged: an ApiCallTrace for the request, each send answered by the API for its token and ordinal, the request counter and last_response moved accordingly |
| MarketData.LoggedFromApi | upstox_fo_complete.py:206-227 | under the client invariant, every successful outcome in the log is the API's answer to that call's own request, for some token and ordinal |
| MarketData.ReadSpotPrice | upstox_fo_complete.py:262-288 | on success, in order: the entry under the requested key, else its "\|"→":" form, else its ":"→"\|" form, else the first entry that has a last_price key, even a null one; the alias recorded is the key found when it differs from the requested one; a missing or null last_price gives no price |
| MarketData.UpstoxFOData.QuoteCall | upstox_fo_complete.py:257-260 | keeps Valid; one quote request logged with its outcome, and a successful outcome is the API's answer to that request; the key cache is left alone |
| MarketData.UpstoxFOData.GetSpotPrice | upstox_fo_complete.py:232-297 | keeps Valid; no key means no request; else one quote request for the key after the cache mapping, whose successful answer is the API's answer to it; the price read as ReadSpotPrice, and the cache extended with a differing alias (SpotResult and SpotCache of the request made) |
| MarketData.QuoteCandidates | upstox_fo_complete.py:330-346 | the requested key first; five keys for SMALLCAP names, four for MIDCAP, just the key otherwise |
| MarketData.ReadQuote | upstox_fo_complete.py:355-371 | on success, the entry under the first present variant, else the answer's first entry when its key is non-empty, whatever its fields; nothing on a failed envelope |
| MarketData.QuoteSummary | upstox_fo_complete.py:374-399 | ltp (the last_price, or None when missing or null) and the ohlc fields copied; change and change % computed only when ltp and previous close are both non-zero, else 0 |
| MarketData.SpotWalkHit | upstox_fo_complete.py:348-405 | the walk stops at the first candidate that answers; the cache then maps the requested key to that candidate when they differ |
| MarketData.SpotWalkMiss | upstox_fo_complete.py:348-405 | a walk through every candidate with no answer yields nothing and leaves the cache unchanged |
| MarketData.UpstoxFOData.TryQuote | upstox_fo_complete.py:348-371 | keeps Valid; one quote request for the candidate, whose successful answer is the API's answer to it; a quote exactly when the answer holds one, read by ReadQuote |
| MarketData.UpstoxFOData.GetSpotQuote | upstox_fo_complete.py:299-405 | keeps Valid, so every logged request was sent and answered by the API; the logged requests are the candidate walk of SpotWalkOutcome for the mapped key; no key means no request and an empty result |
| MarketData.UpstoxFOData.WalkSpotCandidates | upstox_fo_complete.py:348-405 | keeps Valid; the candidate walk for a resolved key, answered by the API, ends as SpotWalkOutcome says, the alias cached on a hit |
| MarketData.UpstoxFOData.WalkQuotes | upstox_fo_complete.py:348-371 | keeps Valid; one logged call per candidate in order, each an API call trace for that candidate, stopping at the first usable entry, which is returned with its index; every candidate tried when none answers |
| MarketData.UpstoxFOData.GetFuturesData | upstox_fo_complete.py:554-656 | keeps Valid, so every attempt's requests were sent and answered by the API; the expiry is the given one or NextExpiry's; the attempts follow FuturesKeys in order, each with the cache the earlier ones left; the result is the figures of the first attempt with a truthy futures price and a truthy spot price; None exactly when every key was tried without one |
| MarketData.UpstoxFOData.ChooseExpiry | upstox_fo_complete.py:563-564 | the given expiry, else a valid date that is NextExpiry's answer |
| MarketData.UpstoxFOData.WalkFutures | upstox_fo_complete.py:590-651 | keeps Valid; one attempt per key in order, logged with its spot-price requests and cache updates, stopping at the first with a result; every key tried when none gives one |
| MarketData.UpstoxFOData.TryFutures | upstox_fo_complete.py:590-651 | keeps Valid; one quote request for the key, whose successful answer is the API's answer to it; a spot-price fetch exactly when an entry was read; a result exactly when the entry's last_price and the spot price are both truthy, with the basis, OI and volume |
| MarketData.ChainRetryKeys | upstox_fo_complete.py:477-489 | the chain request key first; only the key for Nifty 50/Bank Nifty unless it is an NSE_EQ id; a last "NSE_EQ\|symbol" try for other symbols |
| MarketData.ChainRetryKeysAt | upstox_fo_complete.py:477-489 | one, two or three keys: the colon form second for an "NSE_EQ" key with a "\|", "NSE_EQ\|symbol" last for a symbol that is not a named index |
| MarketData.UpstoxFOData.ChainCall | upstox_fo_complete.py:472-476 | keeps Valid; one chain request, logged with its outcome, and a successful outcome is the API's answer to that request; the key cache is left alone |
| MarketData.UpstoxFOData.RequestChain | upstox_fo_complete.py:472-489 | keeps Valid; the logged attempts, each sent and answered by the API, follow ChainRetryKeys until one answers or an auth failure ends them; the response is the last attempt's |
| MarketData.ChainRowsSound | upstox_fo_complete.py:545-552 | the rows are the liquid, near-spot shaped rows sorted by strike, each from an item of the response |
| MarketData.UpstoxFOData.GetOptionChain | upstox_fo_complete.py:433-552 | keeps Valid; the expiry is the given one or NextExpiry's; the attempts follow ChainRetryKeys of ChainKey; "no data" exactly when the last attempt got no answer; an auth failure is passed on; after a success, one spot-price fetch with its cache update; SpotUnavailable exactly when it reads no price; with a price, ChainMalformed exactly when the data is a non-empty quote object (the source's AttributeError); a success carries that price and ChainRows |
| MarketData.UpstoxFOData.ChainFromAnswer | upstox_fo_complete.py:494-552 | after a successful chain answer: one spot-price fetch with its cache update; SpotUnavailable exactly when it gives no price; ChainMalformed exactly when there is a price and the data is a non-empty quote object; otherwise the filtered, sorted rows of the answer with that price |
| Chain.OiChange | upstox_fo_complete.py:538-539 | the OI change is oi − previous OI when both are non-zero, else 0; its sign says which way OI moved |
| Chain.ShapeLeg | upstox_fo_complete.py:505-539 | each column is its market_data or option_greeks field; volume, oi and prev_oi default to 0 and the others to None when the field, the object or the leg is missing; the OI change of its own OI and previous OI |
| Chain.ShapeRow | upstox_fo_complete.py:500-537 | a row exists exactly for an item with a strike, at that strike, with the call and put legs shaped from call_options and put_options |
| Chain.ShapedRowsMembers | upstox_fo_complete.py:498-541 | one row per item with a strike, and every row comes from such an item |
| Chain.ShapeChain | upstox_fo_complete.py:498-541 | the row-appending loop builds exactly ShapedRows of the items |
| Analytics.Filter | upstox_fo_complete.py:737-750 | an order-preserving subsequence in which each element that satisfies the predicate occurs as often as in the input, and no other element occurs |
| Analytics.FilterLiquidStrikes | upstox_fo_complete.py:730-755 | a subsequence of the chain holding, with their multiplicity, exactly the rows within the distance of spot that have OI > 100, volume > 10 or an IV; empty for a spot of 0 |
| Analytics.ArgMax | upstox_fo_complete.py:761-762 | the first index of a maximal value (idxmax) |
| Analytics.ArgMin | upstox_fo_complete.py:813-814 | the first index of a minimal value (idxmin) |
| Analytics.FilterByAtm | upstox_fo_complete.py:757-768 | None exactly for an empty chain; otherwise the rows, with their multiplicity and order, within the distance of the strike of the first maximal total OI |
| Analytics.Ratio | upstox_fo_complete.py:777-778 | the quotient when the denominator is positive, else 0 |
| Analytics.PcrSentiment | upstox_fo_complete.py:780-788 | OVERSOLD exactly above 1.4, OVERBOUGHT exactly below 0.6, NEUTRAL in between; exhaustive and exclusive |
| Analytics.CalculatePcr | upstox_fo_complete.py:770-797 | totals are the OI sums; PCR of OI and of volume are their ratios (0 without call OI or volume); sentiment of the OI ratio |
| Analytics.PainValues | upstox_fo_complete.py:801-811 | one total pain per chain strike, in chain order |
| Analytics.CalculateMaxPain | upstox_fo_complete.py:799-822 | the max-pain strike is the first strike of minimal total pain; the distance to the price only when the price is non-zero |
| Analytics.MaxPainExample | upstox_fo_complete.py:799-822 | strikes 100/110/120 with OI only at 110 give max pain 110 |
| Analytics.NetDeltaAppend | upstox_fo_complete.py:685-687 | net delta is additive over concatenated chains |
| Analytics.BiasOf | upstox_fo_complete.py:710-715 | NET LONG exactly for positive net delta, NET SHORT for negative, NEUTRAL for 0 |
| Analytics.GreeksSummary | upstox_fo_complete.py:669-728 | net delta and its bias, the strike of first maximal total gamma, the IVs at the strike nearest spot, theta and vega sums |
| Analytics.CalculateGreeksAnalysis | upstox_fo_complete.py:669-728 | an empty chain gives None and no column; otherwise the frame gains the total-gamma column and the result is GreeksSummary; rows unchanged |
| Analytics.TopByChange | upstox_fo_complete.py:829-830 | at most n rows, all with positive change, in descending change order, drawn from the positive rows and beating every row left out |
| Analytics.TopFacts | upstox_fo_complete.py:829-830 | a prefix of the rows sorted by descending change has all four properties TopByChange promises |
| Analytics.OiAnalysis | upstox_fo_complete.py:824-837 | resistance and support at the first maximal call and put OI; build-ups are the strikes of the top five positive changes |
| Analytics.BuildupMeansGain | upstox_fo_complete.py:829-830 | every reported build-up strike gained OI |
| Analytics.InterpretBasis | upstox_fo_complete.py:658-667 | the four basis bands (>0.5, (0.2,0.5], <−0.2, [−0.2,0.2]) are exhaustive and exclusive |
| Analytics.ClampDays | upstox_fo_complete.py:631-632 | days to expiry are at least 1 before the carry division and unchanged when already ≥ 1 |
| Analytics.FuturesBasis | upstox_fo_complete.py:624-636 | basis = futures − spot, basis % relative to spot, annual carry over the clamped days, and the band of the basis % |
| Analytics.BasisExample | upstox_fo_complete.py:624-636 | futures 105 over spot 100 is a 5% basis, a strong premium |
| Expiry.DaysUntilTuesday | upstox_fo_complete.py:929-933 | 0 to 7 days; 0 exactly on Tuesday before 15:00, 7 exactly on Tuesday from 15:00 |
| Expiry.TuesdayIsNext | upstox_fo_complete.py:929-933 | the day reached is a Tuesday and no Tuesday lies strictly between |
| Expiry.TuesdayAhead | upstox_fo_complete.py:929-935 | for a day count of the weekday formula, the date reached is a Tuesday, that many days on, with no Tuesday before it |
| Calendar.DaysBeforeYearClosedForm | upstox_fo_complete.py:929 | the days before a year, counted year by year with leap years, equal the proleptic Gregorian closed form that ordinals and weekdays rest on |
| Calendar.LastThursday | upstox_fo_complete.py:941-944 | a Thursday in the given month, within its last seven days |
| Expiry.FallbackExpiry | upstox_fo_complete.py:923-960 | Nifty names get the next Tuesday; others the month's last Thursday, or next month's once it has passed (December rolls into January) |
| Expiry.FallbackNotPast | upstox_fo_complete.py:923-960 | the fallback date is never before today, and is today only before 15:00 |
| Expiry.ListKey | upstox_fo_complete.py:863-867 | the master list consulted per category; index names use the IDX lists |
| Expiry.ExpiryList | upstox_fo_complete.py:857-873 | the list exists exactly when the normalised symbol is in the master and holds that list |
| Expiry.InsertDate | upstox_fo_complete.py:875-878 | inserting keeps a strictly ascending list with the new date added |
| Expiry.UpcomingDates | upstox_fo_complete.py:875-878 | strictly ascending, exactly the distinct listed expiries not before today |
| Expiry.FirstEligibleDate | upstox_fo_complete.py:884-902 | the index of the first upcoming date that the requested type admits, None exactly when no upcoming date qualifies |
| Expiry.NextExpiry | upstox_fo_complete.py:839-921 | a valid date; the fallback without a list; otherwise the first upcoming date eligible for the requested type, else the earliest upcoming one for weekly, else the fallback |
| Expiry.ChosenFromMasterUpcoming | upstox_fo_complete.py:875-921 | a date taken from the master is listed and not before today |
| Sorting.SortBy | preprocess_nse_data.py:148 | the sorted list is ordered by key and a permutation of the input |
| Sorting.SortByStable | preprocess_nse_data.py:148 | the sort is stable: the elements of each key keep their input order |
| Preprocess.SymbolMapDistinct | preprocess_nse_data.py:33-52 | no ticker and no exchange symbol appears twice in SYMBOL_MAP |
| Preprocess.ToAppInverts | preprocess_nse_data.py:71 | with distinct entries the reverse map undoes the map, in both directions |
| Preprocess.MatchApp | preprocess_nse_data.py:95 | the ticker via underlying_symbol, else via asset_symbol, else via trading_symbol; found exactly when one of them maps |
| Preprocess.FoCategory | preprocess_nse_data.py:121-127 | FUT to a futures list, CE/PE to an options list, IDX exactly for NIFTY, BANKNIFTY and MIDCPNIFTY records, other types dropped |
| Preprocess.ContractOf | preprocess_nse_data.py:130-139 | monthly exactly when weekly is False, weekly exactly when True, never both; strike and option type exactly on options |
| Preprocess.InitialMaster | preprocess_nse_data.py:65-68 | one entry per SYMBOL_MAP ticker, each with no SPOT and four empty lists |
| Preprocess.Step | preprocess_nse_data.py:89-141 | fails only on an unreadable option strike; an unmatched record leaves the master as it is; only the matched ticker's entry changes |
| Preprocess.StepSpot | preprocess_nse_data.py:103-113 | SPOT changes only on NSE_INDEX/NSE_EQ INDEX/EQ records; it is overwritten by a primary record or when empty, else kept |
| Preprocess.StepLists | preprocess_nse_data.py:115-141 | an accepted F&O record is appended to exactly its own list; other records leave the lists alone |
| Preprocess.StepKeepsPrimary | preprocess_nse_data.py:106-108 | a primary SPOT is never replaced by a non-primary one |
| Preprocess.StepKeepsShape | preprocess_nse_data.py:130-141 | every filed entry keeps the shape of its list |
| Preprocess.ProcessAllFails | preprocess_nse_data.py:79-156 | the run fails exactly when some record crashes |
| Preprocess.PrimaryStays | preprocess_nse_data.py:103-113 | once a ticker has a primary SPOT, it still has one at the end of the run |
| Preprocess.SortEntryLists | preprocess_nse_data.py:146-148 | the sorted entry keeps SPOT and has all four lists, each the sorted list filed under its category |
| Preprocess.SortEntrySorted | preprocess_nse_data.py:148 | each sorted list is ordered by (expiry, strike) and a permutation of what was appended |
| Preprocess.KeepAndSort | preprocess_nse_data.py:143-149 | final_master holds exactly the tickers with a SPOT or a non-empty list, each with sorted lists |
| Preprocess.PreprocessNseData | preprocess_nse_data.py:64-156 | None exactly when some record crashes; otherwise the final master of the completed run |
| JsonValues.ConvertDecimals | preprocess_nse_data.py:54-62 | lists stay lists of the same length, dicts keep their keys in order, a Decimal becomes a float of the same value |
| JsonValues.ConvertSimilar | preprocess_nse_data.py:54-62 | the conversion changes nothing but Decimal leaves |
| JsonValues.ConvertClears | preprocess_nse_data.py:54-62 | no Decimal is left anywhere |
| JsonValues.ConvertUnique | preprocess_nse_data.py:54-62 | the converted value is the only Decimal-free value of the input's shape |
| JsonValues.ConvertIdempotent | preprocess_nse_data.py:54-62 | converting twice is converting once |
| SessionState.FillOne | core/state_manager.py:22-23 | a default is written only when its key is absent |
| SessionState.FillKeeps | core/state_manager.py:20-23 | after filling, the keys are the old ones plus the default keys, and old keys keep their values |
| SessionState.FillNew | core/state_manager.py:20-23 | an absent key named once takes its default |
| SessionState.FillIdempotent | core/state_manager.py:20-23 | filling twice is filling once |
| SessionState.StateManager.Init | core/state_manager.py:20-23 | the session becomes the old session filled with DEFAULTS in order |
| SessionState.InitEffect | core/state_manager.py:10-23 | after init every DEFAULTS key is present, present keys keep their values, no other key appears, absent keys hold their defaults |
| SessionState.StateManager.Get | core/state_manager.py:26-27 | the stored value, None for a missing key |
| SessionState.StateManager.Set | core/state_manager.py:30-31 | overwrites exactly one entry |
| SessionState.StateManager.GetActiveTicker | core/state_manager.py:34-35 | the stored ticker, 'TCS.NS' when none is stored |
| SessionState.NormalizeTicker | core/state_manager.py:40-43 | upper().strip() of the input, with ".NS" appended exactly when it neither ends with ".NS", starts with "^" nor contains "USD" |
| SessionState.StateManager.SetActiveTicker | core/state_manager.py:38-43 | stores the normalised ticker under active_ticker, nothing else changes |
| SessionState.StoredTickerForm | core/state_manager.py:40-43 | a stored ticker ends with ".NS", starts with "^" or contains "USD" |
| SessionState.CleanIsUpper | core/state_manager.py:40 | upper().strip() yields an upper-case string |
| SessionState.NormalizeIdempotent | core/state_manager.py:40-43 | normalising a normalised ticker returns it unchanged |
| Fundamentals.GetKeyMetrics | plugins/fundamental_scanner.py:28-40 | each of the nine metrics is the info entry under its own key (trailingPE, forwardPE, profitMargins, returnOnEquity, debtToEquity, currentRatio, revenueGrowth, heldPercentInstitutions, dividendYield), None exactly when missing |
| Fundamentals.DetectSignals | plugins/fundamental_scanner.py:44-68 | the rule-by-rule appends, guarded by truthiness, produce exactly the signals stated on the metrics alone |
| Fundamentals.FlagRules | plugins/fundamental_scanner.py:55-59 | the margin flag exactly for a present negative margin; the institutional flag exactly for a present, non-zero holding under 10% |
| Fundamentals.SignalRules | plugins/fundamental_scanner.py:62-66 | High ROE exactly above 0.15 ROE, Strong Growth exactly above 0.15 revenue growth |
| Fundamentals.SignalOrder | plugins/fundamental_scanner.py:44-68 | at most two flags (margin, then institutional) and two signals (ROE, then growth) |
| Fundamentals.DebtIgnored | plugins/fundamental_scanner.py:48-53 | debt-to-equity never changes the flags or signals |
| Fundamentals.ScreenerSymbol | plugins/fundamental_scanner.py:72 | the screener symbol is upper case |
| Fundamentals.ScreenerDropsSuffix | plugins/fundamental_scanner.py:72 | a trailing ".NS" is dropped |
| Fundamentals.ScreenerKeepsLowerSuffix | plugins/fundamental_scanner.py:72 | removal precedes upper-casing, so "tcs.ns" becomes "TCS.NS" |

## Left out

- Network and OAuth plumbing: the local callback server, the browser and the HTTP calls. They are oracles: the auth code and token-endpoint answer (`AuthEnv`) and the API function from request, token and ordinal to envelope.
- Failures of `requests.get` and `response.json()` (a connection error, a body that is not JSON), which `_make_api_call` logs and re-raises: the API oracle always returns an envelope, so these paths are not modelled.
- MarketData.UpstoxFOData.Valid: the invariant ties every send to the API oracle but does not tie each fetched token to the token file; MakeApiCall's own contract does that for the trace of each call.
- The token file and the instrument-master file I/O, streaming JSON parsing and `json.dump`. The token record, the master and the record list are passed in as values.
- The clock: `datetime.now()` and `time.time()` become the parameters `today`, `hour` and `now`. `exchange_code_for_tokens` reads the clock twice; the model uses one `now` for both reads.
- `datetime.fromtimestamp` in the builder, which depends on the local time zone: a record's expiry is given as a date, or as none when the field is missing or 0, both of which the source skips as falsy.
- `float(strike_price)`: a record's strike is given as a number, missing, or unreadable. An unreadable one stops the run, as the exception does.
- Python floats are modelled as exact reals: no rounding, NaN or infinities. `float(Decimal)` keeps the value exactly.
- `convert_decimals` on tuples and other containers: only lists, dicts and scalar leaves are modelled. No caller in the source uses it.
- pandas mechanics (DataFrame copies, `fillna`, `idxmax`, `nlargest`) are modelled on sequences of rows.
- Sorting.SortBy: the sort is stable (Sorting.SortByStable), as `list.sort` in the builder is. pandas `sort_values` on the chain's strikes uses an unstable quicksort; there the model's order of ties is one of the orders pandas may produce.
- Analytics.TopByChange: `nlargest` ties are not pinned to pandas' choice. The contract states the order, the bound and that each kept row beats every row left out.
- The interpretation texts formatted with two decimals are modelled as band labels.
- Logging, and exception handling beyond "returns None, an empty result or a failure".
- Expiry strings: the fetchers take expiries as dates. For a malformed expiry string the source's `strptime` fails, the NSE_FO keys are not built and, without a resolved key, `get_futures_data` answers "no keys to try". For the valid dates the model takes, the two NSE_FO keys are always built, so that branch cannot be reached.
- JSON null against a missing field: only last_price keeps the two apart (MarketData.Field); the other fields read a null as missing.
- MarketData.QuoteSummary: a null "ohlc" is read here as an object with no fields, where the source's `.get` on None raises and get_spot_quote moves to the next candidate.
- Chain.ShapeLeg: reading Chain.MarketQuote, a null volume, oi or prev_oi is read as missing and becomes 0, where the source keeps None (NaN in the table). A null call_options, put_options, market_data or option_greeks object is read as missing, where the source raises out of get_option_chain.
- `get_holdings`, `get_positions`, the UI `render` methods and the constant mock in `ScreenerFetcher.get_ratios` are not part of this model.
- Fundamentals: yfinance info values are taken to be numbers. Non-numeric values and the info fetch are not modelled.
- Upper-casing is ASCII only; Unicode case mapping is not modelled. Stripping removes exactly the characters for which Python's `str.isspace` holds.
- `UPSTOX_TO_APP` is built by a dict comprehension, where a repeated exchange symbol's last ticker wins. The model looks up the first. The two agree because SYMBOL_MAP has no repeats (Preprocess.SymbolMapDistinct).
- The builder's final SymbolEntry keeps SPOT and the four lists only. The source's dict has no other keys.
