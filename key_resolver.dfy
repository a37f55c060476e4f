/** Instrument-key resolution (`_get_instrument_key`) and the fallback
    identifiers the market-data client builds when resolution fails. */
module KeyResolver {
  import opened Wrappers
  import opened Text
  import opened Calendar
  import opened Instruments

  /** The instrument_type argument: "SPOT" or one of the four list names. */
  datatype InstrumentType = SpotType | ListType(category: Category)

  /** The three application names that are not tickers. */
  predicate NamedIndex(symbol: string) {
    symbol == "Nifty 50" || symbol == "Bank Nifty" || symbol == "Nifty Midcap 100"
  }

  /** Maps a user-facing symbol to the instrument master's key form:
      named indices to their index keys, bare tickers to "<ticker>.NS". */
  function NormalizeSymbol(symbol: string): (n: string)
    ensures StartsWith(n, "^") || EndsWith(n, ".NS")
    ensures symbol == "Nifty 50" ==> n == "^NSEI"
    ensures symbol == "Bank Nifty" ==> n == "^NSEBANK"
    ensures symbol == "Nifty Midcap 100" ==> n == "NIFTY_MIDCAP_100.NS"
    ensures !NamedIndex(symbol) && (StartsWith(symbol, "^") || EndsWith(symbol, ".NS")) ==> n == symbol
    ensures !NamedIndex(symbol) && !StartsWith(symbol, "^") && !EndsWith(symbol, ".NS") ==> n == symbol + ".NS"
  {
    if symbol == "Nifty 50" then "^NSEI"
    else if symbol == "Bank Nifty" then "^NSEBANK"
    else if symbol == "Nifty Midcap 100" then "NIFTY_MIDCAP_100.NS"
    else if !StartsWith(symbol, "^") && !EndsWith(symbol, ".NS") then
      assert (symbol + ".NS")[|symbol + ".NS"| - 3..] == ".NS";
      symbol + ".NS"
    else symbol
  }

  /** Normalising twice is normalising once. */
  lemma NormalizeIdempotent(symbol: string)
    ensures NormalizeSymbol(NormalizeSymbol(symbol)) == NormalizeSymbol(symbol)
  {
  }

  /** The master key used: the normalised symbol, else the raw symbol when
      only it is a key, else none. */
  function EntryKey(master: Master, symbol: string): (k: Option<string>)
    ensures k.Some? ==> k.value in master && (k.value == NormalizeSymbol(symbol) || k.value == symbol)
    ensures k.None? <==> NormalizeSymbol(symbol) !in master && symbol !in master
    ensures NormalizeSymbol(symbol) in master ==> k == Some(NormalizeSymbol(symbol))
  {
    var n := NormalizeSymbol(symbol);
    if n in master then Some(n) else if symbol in master then Some(symbol) else None
  }

  /** What a contract list is scanned for: an exact (expiry, strike, type)
      for options, an exact expiry for futures. */
  datatype Query = OptionQuery(expiry: Date, strike: real, side: Side) | FutureQuery(expiry: Date)

  predicate Matches(c: Contract, q: Query) {
    match q
    case OptionQuery(e, k, t) => c.expiry == e && c.strike == Some(k) && c.optionType == Some(t)
    case FutureQuery(e) => c.expiry == e
  }

  ghost predicate FirstMatchAt(list: seq<Contract>, q: Query, i: int) {
    0 <= i < |list| && Matches(list[i], q) && forall j :: 0 <= j < i ==> !Matches(list[j], q)
  }

  /** The position of the first contract in list order that matches. */
  function FindContract(list: seq<Contract>, q: Query): (r: Option<nat>)
    ensures r.Some? ==> r.value < |list| && Matches(list[r.value], q)
    ensures r.Some? ==> forall j :: 0 <= j < r.value ==> !Matches(list[j], q)
    ensures r.None? ==> forall j :: 0 <= j < |list| ==> !Matches(list[j], q)
  {
    if list == [] then None
    else if Matches(list[0], q) then Some(0)
    else match FindContract(list[1..], q)
      case None => None
      case Some(i) => Some(i + 1)
  }

  /** The query the arguments ask for, if they are complete enough for the
      scan to run: options need a truthy expiry, strike and option type (a
      strike of 0 is falsy), futures an expiry. */
  function QueryFor(c: Category, expiry: Option<Date>, strike: Option<real>, side: Option<Side>): Option<Query> {
    if c.IsOption() && expiry.Some? && strike.Some? && strike.value != 0.0 && side.Some? then
      Some(OptionQuery(expiry.value, strike.value, side.value))
    else if c.IsFuture() && expiry.Some? then Some(FutureQuery(expiry.value))
    else None
  }

  /** The instrument key of the first matching contract, or of the SPOT
      descriptor; None for an empty master, an unknown symbol, an
      incomplete query or no match. */
  function GetInstrumentKey(master: Master, symbol: string, itype: InstrumentType,
                            expiry: Option<Date>, strike: Option<real>, side: Option<Side>): (r: Option<string>)
    ensures |master| == 0 || EntryKey(master, symbol).None? ==> r.None?
    ensures itype.SpotType? && EntryKey(master, symbol).Some? ==>
      var e := master[EntryKey(master, symbol).value];
      r == (if e.spot.Some? then e.spot.value.instrumentKey else None)
    ensures itype.ListType? && r.Some? ==>
      EntryKey(master, symbol).Some? &&
      var list := ListOf(master[EntryKey(master, symbol).value], itype.category);
      var q := QueryFor(itype.category, expiry, strike, side);
      q.Some? && (exists i :: FirstMatchAt(list, q.value, i) && list[i].instrumentKey == r)
    ensures itype.ListType? && EntryKey(master, symbol).Some? ==>
      var list := ListOf(master[EntryKey(master, symbol).value], itype.category);
      var q := QueryFor(itype.category, expiry, strike, side);
      q.None? || (forall i :: 0 <= i < |list| ==> !Matches(list[i], q.value)) ==> r.None?
    ensures itype.ListType? && EntryKey(master, symbol).Some? ==>
      var list := ListOf(master[EntryKey(master, symbol).value], itype.category);
      var q := QueryFor(itype.category, expiry, strike, side);
      q.Some? ==> forall i :: FirstMatchAt(list, q.value, i) ==> r == list[i].instrumentKey
  {
    if |master| == 0 then None
    else match EntryKey(master, symbol)
      case None => None
      case Some(k) =>
        var e := master[k];
        match itype
        case SpotType => if e.spot.Some? then e.spot.value.instrumentKey else None
        case ListType(c) =>
          var list := ListOf(e, c);
          match QueryFor(c, expiry, strike, side)
          case None => None
          case Some(q) =>
            match FindContract(list, q)
            case None => None
            case Some(i) => list[i].instrumentKey
  }

  /** The SPOT key alone, as get_spot_price and get_spot_quote ask for it. */
  function SpotKey(master: Master, symbol: string): Option<string> {
    GetInstrumentKey(master, symbol, SpotType, None, None, None)
  }

  predicate IsIndexName(symbol: string) {
    Contains(symbol, "Nifty") || Contains(symbol, "Bank Nifty")
  }

  /** The hard-coded spot identifiers tried when resolution gives nothing;
      `withSmallcap` adds the small-cap index rule of get_spot_quote. */
  function SpotFallbackKey(symbol: string, withSmallcap: bool): (r: Option<string>)
    ensures r.Some? ==> StartsWith(r.value, "NSE_INDEX|") || r.value == "NSE_EQ|" + symbol
    ensures r.Some? ==> r.value != ""
  {
    if symbol == "Nifty 50" || symbol == "^NSEI" then IndexKey("Nifty 50")
    else if symbol == "Bank Nifty" || symbol == "^NSEBANK" then IndexKey("Nifty Bank")
    else if symbol == "Nifty Midcap 100" || Contains(Upper(symbol), "MIDCAP") then IndexKey("Nifty Midcap 100")
    else if withSmallcap && (symbol == "Nifty Smallcap 100" || Contains(Upper(symbol), "SMALLCAP")) then
      IndexKey("Nifty Smallcap 100")
    else if !StartsWith(symbol, "^") then Some("NSE_EQ|" + symbol)
    else None
  }

  /** The fallback gives nothing exactly for a "^" symbol other than the
      two named indices that is neither a mid-cap nor (in the quote path)
      a small-cap name. */
  lemma SpotFallbackNone(symbol: string, withSmallcap: bool)
    ensures SpotFallbackKey(symbol, withSmallcap).None? <==>
      StartsWith(symbol, "^") && symbol != "^NSEI" && symbol != "^NSEBANK" &&
      !Contains(Upper(symbol), "MIDCAP") && !(withSmallcap && Contains(Upper(symbol), "SMALLCAP"))
  {
    if StartsWith(symbol, "^") {
      assert symbol[0] == '^';
      assert symbol != "Nifty 50" && symbol != "Bank Nifty";
      assert symbol != "Nifty Midcap 100" && symbol != "Nifty Smallcap 100";
    }
  }

  /** "NSE_INDEX|<name>", an index instrument key. */
  function IndexKey(name: string): (r: Option<string>)
    ensures r.Some? && StartsWith(r.value, "NSE_INDEX|") && r.value != ""
  {
    var k := "NSE_INDEX|" + name;
    assert k[..10] == "NSE_INDEX|";
    Some(k)
  }

  /** The key a spot request is sent with: the resolved SPOT key, replaced
      by its cached response key when there is one, else the fallback. */
  function SpotRequestKey(master: Master, keyMap: map<string, string>, symbol: string, withSmallcap: bool): (r: Option<string>)
    ensures r.Some? ==> r.value != ""
    ensures Truthy(SpotKey(master, symbol)) && SpotKey(master, symbol).value !in keyMap ==> r == SpotKey(master, symbol)
    ensures (SpotKey(master, symbol).Some? && SpotKey(master, symbol).value in keyMap
             && keyMap[SpotKey(master, symbol).value] != "") ==> r == Some(keyMap[SpotKey(master, symbol).value])
    ensures var s := SpotKey(master, symbol);
      s.None? || (s.value !in keyMap && s.value == "") || (s.value in keyMap && keyMap[s.value] == "") ==>
        r == SpotFallbackKey(symbol, withSmallcap)
    ensures r.None? ==> SpotFallbackKey(symbol, withSmallcap).None?
  {
    var resolved := SpotKey(master, symbol);
    var mapped := if resolved.Some? && resolved.value in keyMap then Some(keyMap[resolved.value]) else resolved;
    if Truthy(mapped) then mapped else SpotFallbackKey(symbol, withSmallcap)
  }

  /** The root used by the futures fallback ids. */
  function FuturesRoot(symbol: string): string {
    if symbol == "Nifty 50" then "NIFTY" else if symbol == "Bank Nifty" then "BANKNIFTY" else symbol
  }

  /** "<root><yy><MON>FUT", the exchange's trading symbol for a future. */
  function FuturesTradingSymbol(symbol: string, expiry: Date): string
    requires 1 <= expiry.month <= 12
  {
    FuturesRoot(symbol) + TwoDigitYear(expiry.year) + MonthAbbrevUpper(expiry.month) + "FUT"
  }

  /** The keys get_futures_data tries in order: the resolved key and its
      colon variant when resolution succeeded, then the constructed
      NSE_FO ids with "|" and with ":". */
  function FuturesCandidateKeys(resolved: Option<string>, symbol: string, expiry: Date): (keys: seq<string>)
    requires 1 <= expiry.month <= 12
    ensures |keys| == if Truthy(resolved) then 4 else 2
    ensures Truthy(resolved) ==> keys[0] == resolved.value && keys[1] == ReplaceChar(resolved.value, '|', ':')
    ensures keys[|keys| - 2] == "NSE_FO|" + FuturesTradingSymbol(symbol, expiry)
    ensures keys[|keys| - 1] == "NSE_FO:" + FuturesTradingSymbol(symbol, expiry)
    ensures forall i :: 0 <= i < |keys| ==> keys[i] != ""
  {
    var fallback := ["NSE_FO|" + FuturesTradingSymbol(symbol, expiry), "NSE_FO:" + FuturesTradingSymbol(symbol, expiry)];
    if Truthy(resolved) then [resolved.value, ReplaceChar(resolved.value, '|', ':')] + fallback else fallback
  }

  lemma FuturesKeysExample()
    ensures FuturesCandidateKeys(None, "Nifty 50", Date(2025, 1, 30)) == ["NSE_FO|NIFTY25JANFUT", "NSE_FO:NIFTY25JANFUT"]
  {
    assert TwoDigitYear(2025) == "25";
    assert MonthAbbrevUpper(1) == "JAN";
    var t := FuturesTradingSymbol("Nifty 50", Date(2025, 1, 30));
    assert t == "NIFTY25JANFUT";
    assert "NSE_FO|" + t == "NSE_FO|NIFTY25JANFUT";
    assert "NSE_FO:" + t == "NSE_FO:NIFTY25JANFUT";
  }

  /** The first key get_option_chain requests: fixed index ids for the two
      named indices, otherwise the resolved SPOT key (through the cache),
      otherwise "NSE_EQ|<symbol>". */
  function ChainKey(master: Master, keyMap: map<string, string>, symbol: string): (r: string)
    ensures symbol == "Nifty 50" ==> r == "NSE_INDEX|Nifty 50"
    ensures symbol == "Bank Nifty" ==> r == "NSE_INDEX|Nifty Bank"
    ensures symbol != "Nifty 50" && symbol != "Bank Nifty" ==>
      var s := SpotKey(master, symbol);
      (Truthy(s) && s.value !in keyMap ==> r == s.value) &&
      (Truthy(s) && s.value in keyMap && keyMap[s.value] != "" ==> r == keyMap[s.value]) &&
      (!Truthy(s) || (s.value in keyMap && keyMap[s.value] == "") ==> r == "NSE_EQ|" + symbol)
    ensures r != ""
  {
    if symbol == "Nifty 50" then "NSE_INDEX|Nifty 50"
    else if symbol == "Bank Nifty" then "NSE_INDEX|Nifty Bank"
    else
      var resolved := SpotKey(master, symbol);
      var mapped := if Truthy(resolved) && resolved.value in keyMap then Some(keyMap[resolved.value]) else resolved;
      if Truthy(mapped) then mapped.value else "NSE_EQ|" + symbol
  }

  /** Apart from the two named indices, the chain request goes to the key
      the spot price is requested with whenever the master resolves the
      symbol to a non-empty SPOT key that is not cached as "". */
  lemma ChainKeyAgreesWithSpot(master: Master, keyMap: map<string, string>, symbol: string)
    requires symbol != "Nifty 50" && symbol != "Bank Nifty" && Truthy(SpotKey(master, symbol))
    requires SpotKey(master, symbol).value in keyMap ==> keyMap[SpotKey(master, symbol).value] != ""
    ensures SpotRequestKey(master, keyMap, symbol, false).Some?
    ensures ChainKey(master, keyMap, symbol) == SpotRequestKey(master, keyMap, symbol, false).value
  {
  }
}
