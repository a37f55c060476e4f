/** The offline builder of the instrument master (preprocess_nse_data).
    Each exchange record is matched to an application ticker through the
    inverted symbol table. It is then filed as that ticker's SPOT
    descriptor, or appended to one of its four contract lists. A final
    pass drops tickers with nothing filed and sorts every list by
    (expiry, strike). */
module Preprocess {
  import opened Wrappers
  import opened Calendar
  import opened Sorting
  import opened Instruments

  // ------------------------------------------------------ symbol table

  /** SYMBOL_MAP in its declared order: application ticker -> exchange
      underlying symbol. */
  const SymbolMap: seq<(string, string)> := [
    ("^NSEI", "NIFTY"),
    ("^NSEBANK", "BANKNIFTY"),
    ("NIFTY_MIDCAP_100.NS", "MIDCPNIFTY"),
    ("RELIANCE.NS", "RELIANCE"),
    ("HDFCBANK.NS", "HDFCBANK"),
    ("INFY.NS", "INFY"),
    ("ITC.NS", "ITC"),
    ("TCS.NS", "TCS"),
    ("SBIN.NS", "SBIN"),
    ("ICICIBANK.NS", "ICICIBANK"),
    ("HINDUNILVR.NS", "HINDUNILVR"),
    ("BHARTIARTL.NS", "BHARTIARTL"),
    ("KOTAKBANK.NS", "KOTAKBANK"),
    ("ASIANPAINT.NS", "ASIANPAINT"),
    ("AXISBANK.NS", "AXISBANK"),
    ("MARUTI.NS", "MARUTI"),
    ("LT.NS", "LT"),
    ("BAJFINANCE.NS", "BAJFINANCE")
  ]

  /** The table as the functions below see it: SymbolMap, passed in. */
  type Table = seq<(string, string)>

  /** No ticker and no exchange symbol is listed twice. */
  ghost predicate Distinct(tab: Table) {
    (forall i, j :: 0 <= i < j < |tab| ==> tab[i].0 != tab[j].0) &&
    (forall i, j :: 0 <= i < j < |tab| ==> tab[i].1 != tab[j].1)
  }

  lemma SymbolMapDistinct()
    ensures Distinct(SymbolMap)
  {
    KeysDistinct();
    ValuesDistinct();
  }
  lemma KeysDistinct()
    ensures forall i, j :: 0 <= i < j < |SymbolMap| ==> SymbolMap[i].0 != SymbolMap[j].0
  {
  }
  lemma ValuesDistinct()
    ensures forall i, j :: 0 <= i < j < |SymbolMap| ==> SymbolMap[i].1 != SymbolMap[j].1
  {
  }

  function Column(tab: Table, t: nat, byValue: bool): string
    requires t < |tab|
  {
    if byValue then tab[t].1 else tab[t].0
  }

  /** The first position at or after i whose ticker (byValue false) or
      exchange symbol (byValue true) is x. */
  function Find(tab: Table, x: string, byValue: bool, i: nat): (r: Option<nat>)
    requires i <= |tab|
    ensures r.Some? ==> i <= r.value < |tab| && Column(tab, r.value, byValue) == x
    ensures r.Some? ==> forall t :: i <= t < r.value ==> Column(tab, t, byValue) != x
    ensures r.None? ==> forall t :: i <= t < |tab| ==> Column(tab, t, byValue) != x
    decreases |tab| - i
  {
    if i == |tab| then None
    else if Column(tab, i, byValue) == x then Some(i)
    else Find(tab, x, byValue, i + 1)
  }

  /** `SYMBOL_MAP.get(app)` */
  function Target(tab: Table, app: string): Option<string> {
    match Find(tab, app, false, 0)
    case Some(t) => Some(tab[t].1)
    case None => None
  }

  /** `UPSTOX_TO_APP.get(u)`, the inverted dictionary. The source builds it
      by a comprehension in which a repeated symbol would keep its last
      ticker; the table repeats none, so the first is the same. */
  function ToApp(tab: Table, u: Option<string>): Option<string> {
    if u.None? then None
    else match Find(tab, u.value, true, 0)
      case Some(t) => Some(tab[t].0)
      case None => None
  }

  /** The tickers of the table (`SYMBOL_MAP.keys()`). */
  function Tickers(tab: Table): set<string> {
    set t | 0 <= t < |tab| :: tab[t].0
  }

  /** A table position's ticker has a target. */
  lemma ListedHasTarget(tab: Table, t: nat)
    requires t < |tab|
    ensures Target(tab, tab[t].0).Some?
  {
    assert Column(tab, t, false) == tab[t].0;
  }

  /** A ticker has a target exactly when it is listed. */
  lemma TargetIffListed(tab: Table, k: string)
    ensures Target(tab, k).Some? <==> exists t :: 0 <= t < |tab| && tab[t].0 == k
  {
    if exists t :: 0 <= t < |tab| && tab[t].0 == k {
      var t :| 0 <= t < |tab| && tab[t].0 == k;
      ListedHasTarget(tab, t);
    }
    if Target(tab, k).Some? {
      var t := Find(tab, k, false, 0).value;
      assert tab[t].0 == Column(tab, t, false);
    }
  }

  /** What the inverted dictionary returns is a ticker with a target. */
  lemma ToAppListed(tab: Table, u: Option<string>)
    ensures ToApp(tab, u).Some? ==> ToApp(tab, u).value in Tickers(tab)
  {
  }

  /** With no repeats, the inverted dictionary undoes the dictionary, in
      both directions. */
  lemma ToAppInverts(tab: Table, app: string, u: string)
    requires Distinct(tab)
    ensures Target(tab, app) == Some(u) <==> ToApp(tab, Some(u)) == Some(app)
  {
    var ka := Find(tab, app, false, 0);
    var vu := Find(tab, u, true, 0);
    if ka.Some? && tab[ka.value].1 == u {
      assert Column(tab, ka.value, true) == u;
      assert vu.Some? && vu.value <= ka.value;
      assert tab[vu.value].1 == Column(tab, vu.value, true);
    }
    if vu.Some? && tab[vu.value].0 == app {
      assert Column(tab, vu.value, false) == app;
      assert ka.Some? && ka.value <= vu.value;
      assert tab[ka.value].0 == Column(tab, ka.value, false);
    }
  }

  // ------------------------------------------------------- the records

  /** The JSON `weekly` field: true, false, or missing / not a boolean. */
  datatype WeeklyField = WeeklyTrue | WeeklyFalse | WeeklyOther

  /** The JSON `strike_price` field as float() sees it: missing (default
      0), a number, or a value float() rejects (null, say). */
  datatype StrikeField = StrikeMissing | StrikeNumber(value: real) | StrikeInvalid

  /** One record of the exchange dump. `expiry` is the expiry already
      converted to a local date, None when the field is missing or 0. */
  datatype RawInstrument = RawInstrument(
    segment: Option<string>,
    underlyingSymbol: Option<string>,
    assetSymbol: Option<string>,
    tradingSymbol: Option<string>,
    instrumentType: Option<string>,
    instrumentKey: Option<string>,
    name: Option<string>,
    expiry: Option<Date>,
    weekly: WeeklyField,
    strike: StrikeField)

  /** The ticker a record is filed under: the underlying symbol, else the
      asset symbol, else the trading symbol, looked up in the inverted
      table. */
  function MatchApp(tab: Table, rec: RawInstrument): (r: Option<string>)
    ensures r.Some? ==> r.value in Tickers(tab)
    ensures r.Some? <==> ToApp(tab, rec.underlyingSymbol).Some? || ToApp(tab, rec.assetSymbol).Some? ||
                         ToApp(tab, rec.tradingSymbol).Some?
    ensures ToApp(tab, rec.underlyingSymbol).Some? ==> r == ToApp(tab, rec.underlyingSymbol)
    ensures ToApp(tab, rec.underlyingSymbol).None? && ToApp(tab, rec.assetSymbol).Some? ==> r == ToApp(tab, rec.assetSymbol)
    ensures ToApp(tab, rec.underlyingSymbol).None? && ToApp(tab, rec.assetSymbol).None? ==> r == ToApp(tab, rec.tradingSymbol)
  {
    ToAppListed(tab, rec.underlyingSymbol);
    ToAppListed(tab, rec.assetSymbol);
    ToAppListed(tab, rec.tradingSymbol);
    if ToApp(tab, rec.underlyingSymbol).Some? then ToApp(tab, rec.underlyingSymbol)
    else if ToApp(tab, rec.assetSymbol).Some? then ToApp(tab, rec.assetSymbol)
    else ToApp(tab, rec.tradingSymbol)
  }

  predicate IsSpotRecord(rec: RawInstrument) {
    (rec.segment == Some("NSE_INDEX") || rec.segment == Some("NSE_EQ")) &&
    (rec.instrumentType == Some("INDEX") || rec.instrumentType == Some("EQ"))
  }

  predicate IsFoRecord(rec: RawInstrument) {
    !IsSpotRecord(rec) && rec.segment == Some("NSE_FO")
  }

  /** The primary SPOT record of a ticker is the one whose trading symbol
      is the ticker's exchange symbol. */
  predicate IsPrimary(tab: Table, app: string, tradingSymbol: Option<string>) {
    tradingSymbol.Some? && Target(tab, app) == tradingSymbol
  }

  /** `(us or asym) in [NIFTY, BANKNIFTY, MIDCPNIFTY]` */
  predicate IsIndexRecord(rec: RawInstrument) {
    var u := if Truthy(rec.underlyingSymbol) then rec.underlyingSymbol else rec.assetSymbol;
    u == Some("NIFTY") || u == Some("BANKNIFTY") || u == Some("MIDCPNIFTY")
  }

  /** The list an F&O record goes to, by instrument type and index-ness. */
  function FoCategory(rec: RawInstrument): (c: Option<Category>)
    ensures c.Some? <==> rec.instrumentType in {Some("FUT"), Some("CE"), Some("PE")}
    ensures c.Some? ==> (c.value.IsOption() <==> rec.instrumentType != Some("FUT"))
    ensures c.Some? ==> (c.value in {OptIdx, FutIdx} <==> IsIndexRecord(rec))
  {
    if rec.instrumentType == Some("FUT") then Some(if IsIndexRecord(rec) then FutIdx else FutStk)
    else if rec.instrumentType == Some("CE") || rec.instrumentType == Some("PE") then
      Some(if IsIndexRecord(rec) then OptIdx else OptStk)
    else None
  }

  /** An F&O record that is filed: it has an expiry and a known type. */
  predicate Accepted(rec: RawInstrument) {
    IsFoRecord(rec) && rec.expiry.Some? && FoCategory(rec).Some?
  }

  /** float() of the strike field fails on an option record: the builder
      stops without writing anything. */
  predicate Crashes(tab: Table, rec: RawInstrument) {
    MatchApp(tab, rec).Some? && Accepted(rec) && FoCategory(rec).value.IsOption() && rec.strike.StrikeInvalid?
  }

  /** The entry filed for an accepted record. */
  function ContractOf(rec: RawInstrument): (c: Contract)
    requires Accepted(rec) && !(FoCategory(rec).value.IsOption() && rec.strike.StrikeInvalid?)
    ensures !(c.monthly && c.weekly)
    ensures c.monthly <==> rec.weekly == WeeklyFalse
    ensures c.weekly <==> rec.weekly == WeeklyTrue
    ensures ContractShape(FoCategory(rec).value, c)
    ensures c.expiry == rec.expiry.value && c.instrumentKey == rec.instrumentKey
    ensures FoCategory(rec).value.IsOption() ==>
      c.strike == Some(if rec.strike.StrikeNumber? then rec.strike.value else 0.0) &&
      c.optionType == Some(if rec.instrumentType == Some("CE") then CE else PE)
  {
    var option := FoCategory(rec).value.IsOption();
    Contract(rec.expiry.value, rec.instrumentKey, rec.weekly == WeeklyFalse, rec.weekly == WeeklyTrue,
             rec.tradingSymbol,
             if option then Some(if rec.strike.StrikeNumber? then rec.strike.value else 0.0) else None,
             if option then Some(if rec.instrumentType == Some("CE") then CE else PE) else None)
  }

  /** What every filed entry looks like: never both weekly and monthly;
      options carry a strike and a type, futures neither. */
  predicate ContractShape(cat: Category, c: Contract) {
    !(c.monthly && c.weekly) &&
    (c.strike.Some? <==> cat.IsOption()) &&
    (c.optionType.Some? <==> cat.IsOption())
  }

  // -------------------------------------------------------- the master

  const AllCategories: set<Category> := {OptIdx, FutIdx, OptStk, FutStk}

  lemma AllCategoriesComplete()
    ensures forall c: Category :: c in AllCategories
  {
    forall c: Category ensures c in AllCategories {
      if c.OptIdx? {} else if c.FutIdx? {} else if c.OptStk? {} else {}
    }
  }

  const EmptyEntry := SymbolEntry(None, map[OptIdx := [], FutIdx := [], OptStk := [], FutStk := []])

  /** Exactly the listed tickers, each with all four lists. */
  ghost predicate Shaped(tab: Table, m: Master) {
    m.Keys == Tickers(tab) &&
    (forall k :: k in m ==> m[k].lists.Keys == {OptIdx, FutIdx, OptStk, FutStk})
  }

  /** Every filed entry has the shape of its list. */
  ghost predicate ContractsShaped(m: Master) {
    forall k, c :: k in m && c in m[k].lists ==> ListShaped(c, m[k].lists[c])
  }

  ghost predicate ListShaped(cat: Category, s: seq<Contract>) {
    forall j :: 0 <= j < |s| ==> ContractShape(cat, s[j])
  }

  /** The master before any record: one entry per listed ticker, no SPOT
      and four empty lists. */
  function InitialMaster(tab: Table): (m: Master)
    ensures Shaped(tab, m) && ContractsShaped(m)
    ensures forall k :: k in m ==> m[k] == EmptyEntry
    ensures forall t :: 0 <= t < |tab| ==> tab[t].0 in m
  {
    map k | k in Tickers(tab) :: EmptyEntry
  }

  /** The per-record body of the streaming loop. None is the failed run. */
  function Step(tab: Table, m: Master, rec: RawInstrument): (r: Option<Master>)
    requires Shaped(tab, m)
    ensures r.None? <==> Crashes(tab, rec)
    ensures r.Some? ==> Shaped(tab, r.value)
    ensures MatchApp(tab, rec).None? ==> r == Some(m)
    ensures r.Some? ==> forall k :: k in m && Some(k) != MatchApp(tab, rec) ==> r.value[k] == m[k]
  {
    match MatchApp(tab, rec)
    case None => Some(m)
    case Some(app) =>
      var e := m[app];
      if IsSpotRecord(rec) then
        if IsPrimary(tab, app, rec.tradingSymbol) || e.spot.None? then
          Some(m[app := e.(spot := Some(SpotEntry(rec.instrumentKey, rec.name, rec.tradingSymbol)))])
        else Some(m)
      else if Accepted(rec) then
        var cat := FoCategory(rec).value;
        if cat.IsOption() && rec.strike.StrikeInvalid? then None
        else Some(m[app := e.(lists := e.lists[cat := e.lists[cat] + [ContractOf(rec)]])])
      else Some(m)
  }

  /** SPOT is written only by SPOT records, and a SPOT record writes it
      when it is primary or no SPOT is there yet. */
  lemma StepSpot(tab: Table, m: Master, rec: RawInstrument, app: string)
    requires Shaped(tab, m) && MatchApp(tab, rec) == Some(app)
    ensures Step(tab, m, rec).Some?
      ==> (Step(tab, m, rec).value[app].spot != m[app].spot ==> IsSpotRecord(rec))
    ensures IsSpotRecord(rec) && (IsPrimary(tab, app, rec.tradingSymbol) || m[app].spot.None?) ==>
      Step(tab, m, rec) == Some(m[app := m[app].(spot := Some(SpotEntry(rec.instrumentKey, rec.name, rec.tradingSymbol)))])
    ensures IsSpotRecord(rec) && !IsPrimary(tab, app, rec.tradingSymbol) && m[app].spot.Some? ==> Step(tab, m, rec) == Some(m)
  {
  }

  /** An accepted F&O record appends its entry to exactly one list of
      its ticker; nothing else changes. Any other record leaves every
      list alone. */
  lemma StepLists(tab: Table, m: Master, rec: RawInstrument, app: string)
    requires Shaped(tab, m) && MatchApp(tab, rec) == Some(app) && Step(tab, m, rec).Some?
    ensures Accepted(rec) ==>
      var cat := FoCategory(rec).value;
      Step(tab, m, rec) == Some(m[app := m[app].(lists := m[app].lists[cat := ListOf(m[app], cat) + [ContractOf(rec)]])])
    ensures !Accepted(rec) ==> Step(tab, m, rec).value[app].lists == m[app].lists
  {
    if Accepted(rec) {
      var cat := FoCategory(rec).value;
      assert !IsSpotRecord(rec) && cat in m[app].lists;
    }
  }

  /** A primary SPOT is never replaced by a non-primary one. */
  predicate PrimarySpot(tab: Table, app: string, s: Option<SpotEntry>) {
    s.Some? && IsPrimary(tab, app, s.value.tradingSymbol)
  }

  lemma StepKeepsPrimary(tab: Table, m: Master, rec: RawInstrument, app: string)
    requires Shaped(tab, m) && app in m && PrimarySpot(tab, app, m[app].spot) && Step(tab, m, rec).Some?
    ensures PrimarySpot(tab, app, Step(tab, m, rec).value[app].spot)
  {
    if MatchApp(tab, rec) == Some(app) {
      StepSpot(tab, m, rec, app);
    }
  }

  /** Appending a well-shaped entry to one list keeps the master shaped. */
  lemma AppendKeepsShape(m: Master, app: string, cat: Category, x: Contract)
    requires app in m && cat in m[app].lists && ContractsShaped(m) && ContractShape(cat, x)
    ensures ContractsShaped(m[app := m[app].(lists := m[app].lists[cat := m[app].lists[cat] + [x]])])
  {
    var r := m[app := m[app].(lists := m[app].lists[cat := m[app].lists[cat] + [x]])];
    forall k, c | k in r && c in r[k].lists ensures ListShaped(c, r[k].lists[c]) {
      if k == app && c == cat {
        assert ListShaped(c, m[app].lists[cat]);
      }
    }
  }

  /** Replacing a SPOT leaves the lists alone. */
  lemma SpotKeepsShape(m: Master, app: string, s: Option<SpotEntry>)
    requires app in m && ContractsShaped(m)
    ensures ContractsShaped(m[app := m[app].(spot := s)])
  {
    var r := m[app := m[app].(spot := s)];
    forall k, c | k in r && c in r[k].lists ensures ListShaped(c, r[k].lists[c]) {
      if k == app {
        assert r[k].lists == m[k].lists;
      }
    }
  }

  lemma StepKeepsShape(tab: Table, m: Master, rec: RawInstrument)
    requires Shaped(tab, m) && ContractsShaped(m) && Step(tab, m, rec).Some?
    ensures ContractsShaped(Step(tab, m, rec).value)
  {
    var app := MatchApp(tab, rec);
    if app.Some? {
      var e := m[app.value];
      if IsSpotRecord(rec) {
        SpotKeepsShape(m, app.value, Some(SpotEntry(rec.instrumentKey, rec.name, rec.tradingSymbol)));
      } else if Accepted(rec) {
        AppendKeepsShape(m, app.value, FoCategory(rec).value, ContractOf(rec));
      }
    }
  }

  /** The master after the records, in order; None once a record made the
      run fail. */
  function ProcessAll(tab: Table, recs: seq<RawInstrument>): (r: Option<Master>)
    ensures r.Some? ==> Shaped(tab, r.value)
  {
    if recs == [] then Some(InitialMaster(tab))
    else match ProcessAll(tab, recs[..|recs| - 1])
      case None => None
      case Some(m) => Step(tab, m, recs[|recs| - 1])
  }

  /** No record of the run makes float() fail. */
  predicate CrashFree(tab: Table, recs: seq<RawInstrument>) {
    recs == [] || (CrashFree(tab, recs[..|recs| - 1]) && !Crashes(tab, recs[|recs| - 1]))
  }

  /** CrashFree is "no record crashes". */
  lemma {:induction false} CrashFreeIff(tab: Table, recs: seq<RawInstrument>)
    ensures CrashFree(tab, recs) <==> forall i :: 0 <= i < |recs| ==> !Crashes(tab, recs[i])
  {
    if recs != [] {
      var p := recs[..|recs| - 1];
      CrashFreeIff(tab, p);
      assert forall i :: 0 <= i < |p| ==> p[i] == recs[i];
    }
  }

  /** The run fails exactly when some record makes float() fail. */
  lemma {:induction false} ProcessAllFails(tab: Table, recs: seq<RawInstrument>)
    ensures ProcessAll(tab, recs).None? <==> !CrashFree(tab, recs)
  {
    if recs != [] {
      ProcessAllFails(tab, recs[..|recs| - 1]);
    }
  }

  /** Every entry filed over the whole run has the shape of its list. */
  lemma {:induction false} ProcessAllShaped(tab: Table, recs: seq<RawInstrument>)
    requires ProcessAll(tab, recs).Some?
    ensures ContractsShaped(ProcessAll(tab, recs).value)
  {
    if recs != [] {
      ProcessAllShaped(tab, recs[..|recs| - 1]);
      StepKeepsShape(tab, ProcessAll(tab, recs[..|recs| - 1]).value, recs[|recs| - 1]);
    }
  }

  /** A run that completes completes on every prefix. */
  lemma PrefixRuns(tab: Table, recs: seq<RawInstrument>, i: nat)
    requires i <= |recs| && ProcessAll(tab, recs).Some?
    ensures ProcessAll(tab, recs[..i]).Some?
  {
    ProcessAllFails(tab, recs);
    ProcessAllFails(tab, recs[..i]);
    CrashFreeIff(tab, recs);
    CrashFreeIff(tab, recs[..i]);
    assert forall t :: 0 <= t < i ==> recs[..i][t] == recs[t];
  }

  /** One more record is one more step. */
  lemma NextPrefix(tab: Table, recs: seq<RawInstrument>, i: nat)
    requires i < |recs| && ProcessAll(tab, recs[..i]).Some?
    ensures ProcessAll(tab, recs[..i + 1]) == Step(tab, ProcessAll(tab, recs[..i]).value, recs[i])
  {
    var p := recs[..i + 1];
    assert p[..|p| - 1] == recs[..i];
  }

  /** A run that fails on a prefix fails. */
  lemma PrefixFails(tab: Table, recs: seq<RawInstrument>, i: nat)
    requires i <= |recs| && ProcessAll(tab, recs[..i]).None?
    ensures ProcessAll(tab, recs).None?
  {
    if ProcessAll(tab, recs).Some? {
      PrefixRuns(tab, recs, i);
    }
  }

  /** Once a ticker holds a primary SPOT, later records keep a primary
      SPOT there. */
  lemma {:induction false} PrimaryStays(tab: Table, recs: seq<RawInstrument>, i: nat, app: string)
    requires i <= |recs| && ProcessAll(tab, recs[..i]).Some? && ProcessAll(tab, recs).Some?
    requires app in ProcessAll(tab, recs[..i]).value && PrimarySpot(tab, app, ProcessAll(tab, recs[..i]).value[app].spot)
    ensures app in ProcessAll(tab, recs).value && PrimarySpot(tab, app, ProcessAll(tab, recs).value[app].spot)
    decreases |recs| - i
  {
    if i == |recs| {
      assert recs[..i] == recs;
    } else {
      PrefixRuns(tab, recs, i + 1);
      NextPrefix(tab, recs, i);
      StepKeepsPrimary(tab, ProcessAll(tab, recs[..i]).value, recs[i], app);
      PrimaryStays(tab, recs, i + 1, app);
    }
  }

  // ------------------------------------------------------ output pass

  /** `categories["SPOT"] or any(categories[k] ...)` */
  predicate KeepSymbol(e: SymbolEntry) {
    e.spot.Some? || ListOf(e, OptIdx) != [] || ListOf(e, FutIdx) != [] ||
    ListOf(e, OptStk) != [] || ListOf(e, FutStk) != []
  }

  /** The sort key (expiry, strike, with 0 for futures); ISO date strings
      order like (year, month, day). */
  function ContractRank(c: Contract): Rank {
    Rank(c.expiry.year, c.expiry.month, c.expiry.day, c.strike.GetOr(0.0))
  }

  /** One list sorted by ContractRank: sorted and a permutation. */
  function SortList(s: seq<Contract>): (r: seq<Contract>)
    ensures SortedBy(r, ContractRank) && multiset(r) == multiset(s)
  {
    SortBy(s, ContractRank)
  }

  /** A kept entry with each of its four lists sorted by ContractRank (the
      master's entries have exactly these four lists). */
  function SortEntry(e: SymbolEntry): SymbolEntry {
    e.(lists := map c: Category | c in AllCategories :: SortList(ListOf(e, c)))
  }

  /** The sorted entry keeps SPOT and has all four lists, each the sorted
      list filed under its category. */
  lemma SortEntryLists(e: SymbolEntry)
    ensures SortEntry(e).spot == e.spot
    ensures forall c: Category :: c in SortEntry(e).lists
    ensures forall c: Category :: ListOf(SortEntry(e), c) == SortList(ListOf(e, c))
  {
    AllCategoriesComplete();
  }

  /** In a sorted entry every list is sorted and holds what was filed. */
  lemma SortEntrySorted(e: SymbolEntry, c: Category)
    ensures SortedBy(ListOf(SortEntry(e), c), ContractRank)
    ensures multiset(ListOf(SortEntry(e), c)) == multiset(ListOf(e, c))
  {
    SortEntryLists(e);
  }

  /** final_master: the kept tickers, each with its lists sorted. */
  ghost predicate IsFinal(m: Master, out: Master) {
    (forall k :: k in out <==> k in m && KeepSymbol(m[k])) &&
    (forall k :: k in out ==> out[k] == SortEntry(m[k]))
  }

  /** The post-processing loop: walks the master in the table's key order
      (the order its entries were created in), keeps the tickers that hold
      anything and sorts the four lists of each kept one. */
  method KeepAndSort(tab: Table, master: Master) returns (final: Master)
    requires forall t :: 0 <= t < |tab| ==> tab[t].0 in master
    requires forall k :: k in master ==> exists t :: 0 <= t < |tab| && tab[t].0 == k
    ensures IsFinal(master, final)
  {
    final := map[];
    for j := 0 to |tab|
      invariant forall k :: k in final ==> k in master && KeepSymbol(master[k]) && final[k] == SortEntry(master[k])
      invariant forall t :: 0 <= t < j ==> (tab[t].0 in final <==> KeepSymbol(master[tab[t].0]))
    {
      var app := tab[j].0;
      var e := master[app];
      if KeepSymbol(e) {
        final := final[app := SortEntry(e)];
      }
    }
    KeptEveryListed(tab, master, final);
  }

  /** Every key of the master is listed in the table and every listed
      ticker was visited, so every key worth keeping was kept. */
  lemma KeptEveryListed(tab: Table, master: Master, final: Master)
    requires forall t :: 0 <= t < |tab| ==> tab[t].0 in master
    requires forall k :: k in master ==> exists t :: 0 <= t < |tab| && tab[t].0 == k
    requires forall t :: 0 <= t < |tab| ==> (tab[t].0 in final <==> KeepSymbol(master[tab[t].0]))
    ensures forall k :: k in master && KeepSymbol(master[k]) ==> k in final
  {
  }

  /** A master keyed by the table's tickers: every listed ticker is a key
      and every key is listed. */
  lemma KeyedByTable(tab: Table, master: Master)
    requires master.Keys == Tickers(tab)
    ensures forall t :: 0 <= t < |tab| ==> tab[t].0 in master
    ensures forall k :: k in master ==> exists t :: 0 <= t < |tab| && tab[t].0 == k
  {
    assert forall t :: 0 <= t < |tab| ==> tab[t].0 in Tickers(tab);
  }

  /** preprocess_nse_data: the streaming loop over the records, then the
      filter-and-sort pass. None is a run that stopped on a bad strike. */
  method PreprocessNseData(records: seq<RawInstrument>) returns (out: Option<Master>)
    ensures out.None? <==> exists i :: 0 <= i < |records| && Crashes(SymbolMap, records[i])
    ensures out.None? <==> !CrashFree(SymbolMap, records)
    ensures out.Some? ==> ProcessAll(SymbolMap, records).Some? && IsFinal(ProcessAll(SymbolMap, records).value, out.value)
  {
    var tab := SymbolMap;
    ProcessAllFails(tab, records);
    CrashFreeIff(tab, records);
    var master := InitialMaster(tab);
    var i := 0;
    while i < |records|
      invariant 0 <= i <= |records| && ProcessAll(tab, records[..i]) == Some(master)
    {
      var next := Step(tab, master, records[i]);
      NextPrefix(tab, records, i);
      if next.None? {
        PrefixFails(tab, records, i + 1);
        return None;
      }
      master := next.value;
      i := i + 1;
    }
    assert records[..i] == records;
    KeyedByTable(tab, master);
    var final := KeepAndSort(tab, master);
    out := Some(final);
  }
}
