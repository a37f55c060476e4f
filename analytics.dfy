/** The analytics over a shaped chain: liquidity and ATM filters, put-call
    ratio, max pain, Greeks exposure, OI support/resistance and the
    futures basis. Each works on a sequence of rows; pandas' vectorised
    column arithmetic becomes sums over the sequence. */
module Analytics {
  import opened Wrappers
  import opened Chain
  import opened Sorting

  function Abs(x: real): real {
    if x < 0.0 then -x else x
  }

  function SumInt(s: seq<Row>, f: Row -> int): int {
    if s == [] then 0 else f(s[0]) + SumInt(s[1..], f)
  }

  function SumReal(s: seq<Row>, f: Row -> real): real {
    if s == [] then 0.0 else f(s[0]) + SumReal(s[1..], f)
  }

  lemma {:induction false} SumRealAppend(a: seq<Row>, b: seq<Row>, f: Row -> real)
    ensures SumReal(a + b, f) == SumReal(a, f) + SumReal(b, f)
    decreases |a|
  {
    if a == [] {
      assert [] + b == b;
    } else {
      assert (a + b)[1..] == a[1..] + b;
      SumRealAppend(a[1..], b, f);
    }
  }

  /** a is b with some elements left out, order kept. */
  ghost predicate IsSubsequence<T>(a: seq<T>, b: seq<T>)
    decreases |b|
  {
    if a == [] then true
    else if b == [] then false
    else (a[0] == b[0] && IsSubsequence(a[1..], b[1..])) || IsSubsequence(a, b[1..])
  }

  /** Boolean-mask selection: the rows that satisfy p, in their order. */
  function Filter<T(!new)>(s: seq<T>, p: T -> bool): (r: seq<T>)
    ensures forall i :: 0 <= i < |r| ==> r[i] in s && p(r[i])
    ensures forall i :: 0 <= i < |s| && p(s[i]) ==> s[i] in r
    ensures IsSubsequence(r, s)
    ensures multiset(r) <= multiset(s)
    ensures forall x :: multiset(r)[x] == if p(x) then multiset(s)[x] else 0
  {
    if s == [] then []
    else
      var rest := Filter(s[1..], p);
      assert s == [s[0]] + s[1..];
      if p(s[0]) then
        var r := [s[0]] + rest;
        assert r[1..] == rest;
        r
      else rest
  }

  /** abs((strike - reference) / reference) * 100 <= maxPct. A zero
      reference makes the quotient infinite or NaN, which never passes. */
  predicate WithinDistance(strike: real, reference: real, maxPct: real) {
    reference != 0.0 && Abs((strike - reference) / reference) * 100.0 <= maxPct
  }

  predicate HasLiquidity(r: Row) {
    r.ce.oi + r.pe.oi > 100 || r.ce.volume + r.pe.volume > 10 || r.ce.iv.Some? || r.pe.iv.Some?
  }

  predicate LiquidNear(r: Row, spot: real, maxPct: real) {
    WithinDistance(r.strike, spot, maxPct) && HasLiquidity(r)
  }

  /** _filter_liquid_strikes: keeps, in order, the rows near spot that show
      any liquidity. */
  function FilterLiquidStrikes(chain: seq<Row>, spot: real, maxPct: real): (r: seq<Row>)
    ensures IsSubsequence(r, chain)
    ensures forall row :: row in r <==> row in chain && WithinDistance(row.strike, spot, maxPct) && HasLiquidity(row)
    ensures forall row :: multiset(r)[row] == (if LiquidNear(row, spot, maxPct) then multiset(chain)[row] else 0)
    ensures spot == 0.0 ==> r == []
  {
    Filter(chain, (row: Row) => LiquidNear(row, spot, maxPct))
  }

  /** k is the first position of the largest value of v. */
  ghost predicate IsFirstMax(v: seq<real>, k: int) {
    0 <= k < |v| && (forall j :: 0 <= j < |v| ==> v[j] <= v[k]) && (forall j :: 0 <= j < k ==> v[j] < v[k])
  }

  /** k is the first position of the smallest value of v. */
  ghost predicate IsFirstMin(v: seq<real>, k: int) {
    0 <= k < |v| && (forall j :: 0 <= j < |v| ==> v[k] <= v[j]) && (forall j :: 0 <= j < k ==> v[k] < v[j])
  }

  /** np.argmax / idxmax: the first position of the largest value. */
  function ArgMax(s: seq<real>): (k: nat)
    requires |s| > 0
    ensures k < |s|
    ensures forall j :: 0 <= j < |s| ==> s[j] <= s[k]
    ensures forall j :: 0 <= j < k ==> s[j] < s[k]
    ensures IsFirstMax(s, k)
  {
    if |s| == 1 then 0
    else
      var k := ArgMax(s[..|s| - 1]);
      if s[|s| - 1] > s[k] then |s| - 1 else k
  }

  /** np.argmin / idxmin: the first position of the smallest value. */
  function ArgMin(s: seq<real>): (k: nat)
    requires |s| > 0
    ensures k < |s|
    ensures forall j :: 0 <= j < |s| ==> s[k] <= s[j]
    ensures forall j :: 0 <= j < k ==> s[k] < s[j]
    ensures IsFirstMin(s, k)
  {
    if |s| == 1 then 0
    else
      var k := ArgMin(s[..|s| - 1]);
      if s[|s| - 1] < s[k] then |s| - 1 else k
  }

  function Column(s: seq<Row>, f: Row -> real): (c: seq<real>)
    ensures |c| == |s| && forall i :: 0 <= i < |s| ==> c[i] == f(s[i])
  {
    seq(|s|, i requires 0 <= i < |s| => f(s[i]))
  }

  /** r is chain with exactly the rows whose strike is within maxPct
      percent of centre, in chain order and with their multiplicity. */
  ghost predicate SelectedNear(r: seq<Row>, chain: seq<Row>, centre: real, maxPct: real) {
    IsSubsequence(r, chain) &&
    (forall i :: 0 <= i < |r| ==> r[i] in chain && WithinDistance(r[i].strike, centre, maxPct)) &&
    (forall i :: 0 <= i < |chain| && WithinDistance(chain[i].strike, centre, maxPct) ==> chain[i] in r) &&
    (forall x :: multiset(r)[x] == if WithinDistance(x.strike, centre, maxPct) then multiset(chain)[x] else 0)
  }

  function TotalOi(r: Row): real {
    (r.ce.oi + r.pe.oi) as real
  }

  /** _filter_by_atm: the ATM strike is the first row of largest CE_OI +
      PE_OI, and the rows near it are kept. An empty chain raises (None). */
  function FilterByAtm(chain: seq<Row>, maxPct: real): (r: Option<seq<Row>>)
    ensures r.None? <==> chain == []
    ensures r.Some? ==> exists k :: IsFirstMax(Column(chain, TotalOi), k) && SelectedNear(r.value, chain, chain[k].strike, maxPct)
  {
    if chain == [] then None
    else
      var k := ArgMax(Column(chain, TotalOi));
      var atm := chain[k].strike;
      Some(Filter(chain, (row: Row) => WithinDistance(row.strike, atm, maxPct)))
  }

  // ---------------------------------------------------------------- PCR

  function CallOi(r: Row): int { r.ce.oi }
  function PutOi(r: Row): int { r.pe.oi }
  function CallVolume(r: Row): int { r.ce.volume }
  function PutVolume(r: Row): int { r.pe.volume }

  /** num / den when den > 0, and 0 otherwise. */
  function Ratio(num: int, den: int): (q: real)
    ensures den > 0 ==> q * (den as real) == num as real
    ensures den <= 0 ==> q == 0.0
  {
    if den > 0 then (num as real) / (den as real) else 0.0
  }

  datatype Sentiment = Oversold | Overbought | Neutral

  /** The PCR bands: above 1.4, below 0.6, and the closed range between. */
  function PcrSentiment(pcr: real): (s: Sentiment)
    ensures s == Oversold <==> pcr > 1.4
    ensures s == Overbought <==> pcr < 0.6
    ensures s == Neutral <==> 0.6 <= pcr <= 1.4
  {
    if pcr > 1.4 then Oversold else if pcr < 0.6 then Overbought else Neutral
  }

  datatype PcrResult = PcrResult(pcrOi: real, pcrVolume: real, totalCallOi: int, totalPutOi: int, sentiment: Sentiment)

  /** calculate_pcr over the whole chain. */
  function CalculatePcr(chain: seq<Row>): (r: PcrResult)
    ensures r.totalCallOi == SumInt(chain, CallOi) && r.totalPutOi == SumInt(chain, PutOi)
    ensures r.totalCallOi > 0 ==> r.pcrOi * (r.totalCallOi as real) == r.totalPutOi as real
    ensures r.totalCallOi <= 0 ==> r.pcrOi == 0.0
    ensures SumInt(chain, CallVolume) > 0 ==> r.pcrVolume * (SumInt(chain, CallVolume) as real) == SumInt(chain, PutVolume) as real
    ensures SumInt(chain, CallVolume) <= 0 ==> r.pcrVolume == 0.0
    ensures r.sentiment == PcrSentiment(r.pcrOi)
  {
    var callOi := SumInt(chain, CallOi);
    var putOi := SumInt(chain, PutOi);
    var pcrOi := Ratio(putOi, callOi);
    PcrResult(pcrOi, Ratio(SumInt(chain, PutVolume), SumInt(chain, CallVolume)), callOi, putOi, PcrSentiment(pcrOi))
  }

  // ----------------------------------------------------------- Max pain

  /** Σ over strikes below k of CE_OI * (k - strike). */
  function CallPain(chain: seq<Row>, k: real): real {
    if chain == [] then 0.0
    else (if chain[0].strike < k then (chain[0].ce.oi as real) * (k - chain[0].strike) else 0.0)
         + CallPain(chain[1..], k)
  }

  /** Σ over strikes above k of PE_OI * (strike - k). */
  function PutPain(chain: seq<Row>, k: real): real {
    if chain == [] then 0.0
    else (if chain[0].strike > k then (chain[0].pe.oi as real) * (chain[0].strike - k) else 0.0)
         + PutPain(chain[1..], k)
  }

  /** What option writers pay out if the underlying settles at k. */
  function Pain(chain: seq<Row>, k: real): real {
    CallPain(chain, k) + PutPain(chain, k)
  }

  function PainValues(chain: seq<Row>): (v: seq<real>)
    ensures |v| == |chain| && forall i :: 0 <= i < |chain| ==> v[i] == Pain(chain, chain[i].strike)
  {
    seq(|chain|, i requires 0 <= i < |chain| => Pain(chain, chain[i].strike))
  }

  datatype MaxPainResult = MaxPainResult(strike: real, distancePct: Option<real>)

  /** calculate_max_pain: the first chain strike of least pain, and its
      distance from the current price in percent (None where the source
      divides by a zero price). An empty chain raises (None). */
  method CalculateMaxPain(chain: seq<Row>, currentPrice: real) returns (r: Option<MaxPainResult>)
    ensures r.None? <==> chain == []
    ensures r.Some? ==> exists k :: IsFirstMin(PainValues(chain), k) && r.value.strike == chain[k].strike
    ensures r.Some? && currentPrice != 0.0 ==>
      r.value.distancePct == Some((r.value.strike - currentPrice) / currentPrice * 100.0)
    ensures r.Some? && currentPrice == 0.0 ==> r.value.distancePct.None?
  {
    var values: seq<real> := [];
    var i := 0;
    while i < |chain|
      invariant 0 <= i <= |chain|
      invariant |values| == i
      invariant forall j :: 0 <= j < i ==> values[j] == Pain(chain, chain[j].strike)
    {
      values := values + [Pain(chain, chain[i].strike)];
      i := i + 1;
    }
    assert values == PainValues(chain);
    if |values| == 0 {
      return None;
    }
    var k := ArgMin(values);
    var strike := chain[k].strike;
    var distance := if currentPrice != 0.0 then Some((strike - currentPrice) / currentPrice * 100.0) else None;
    r := Some(MaxPainResult(strike, distance));
  }

  function ExampleRow(strike: real, callOi: int, putOi: int): Row {
    var leg := (oi: int) => Leg(None, 0, oi, 0, None, None, None, None, None, None, None, 0);
    Row(strike, leg(callOi), leg(putOi))
  }

  /** Strikes 100/110/120 with call and put OI only at 110: max pain is the
      middle row, strike 110. */
  lemma MaxPainExample()
    ensures var chain := [ExampleRow(100.0, 0, 0), ExampleRow(110.0, 50, 50), ExampleRow(120.0, 0, 0)];
      IsFirstMin(PainValues(chain), 1) && chain[1].strike == 110.0
  {
    var chain := [ExampleRow(100.0, 0, 0), ExampleRow(110.0, 50, 50), ExampleRow(120.0, 0, 0)];
    assert Pain(chain, 100.0) == 500.0;
    assert Pain(chain, 110.0) == 0.0;
    assert Pain(chain, 120.0) == 500.0;
  }

  // ------------------------------------------------------------- Greeks

  function CallDeltaExposure(r: Row): real { r.ce.delta.GetOr(0.0) * (r.ce.oi as real) }
  function PutDeltaExposure(r: Row): real { r.pe.delta.GetOr(0.0) * (r.pe.oi as real) }
  function ThetaExposure(r: Row): real {
    r.ce.theta.GetOr(0.0) * (r.ce.oi as real) + r.pe.theta.GetOr(0.0) * (r.pe.oi as real)
  }
  function VegaExposure(r: Row): real {
    r.ce.vega.GetOr(0.0) * (r.ce.oi as real) + r.pe.vega.GetOr(0.0) * (r.pe.oi as real)
  }

  /** The total_gamma column. */
  function TotalGamma(r: Row): real {
    r.ce.gamma.GetOr(0.0) * (r.ce.oi as real) + r.pe.gamma.GetOr(0.0) * (r.pe.oi as real)
  }

  /** Σ CE_Delta·CE_OI + Σ PE_Delta·PE_OI, missing deltas counted as 0. */
  function NetDelta(chain: seq<Row>): real {
    SumReal(chain, CallDeltaExposure) + SumReal(chain, PutDeltaExposure)
  }

  /** Net delta is additive over a split of the chain. */
  lemma NetDeltaAppend(a: seq<Row>, b: seq<Row>)
    ensures NetDelta(a + b) == NetDelta(a) + NetDelta(b)
  {
    SumRealAppend(a, b, CallDeltaExposure);
    SumRealAppend(a, b, PutDeltaExposure);
  }

  datatype DeltaBias = NetLong | NetShort | DeltaNeutral

  function BiasOf(netDelta: real): (b: DeltaBias)
    ensures b == NetLong <==> netDelta > 0.0
    ensures b == NetShort <==> netDelta < 0.0
    ensures b == DeltaNeutral <==> netDelta == 0.0
  {
    if netDelta > 0.0 then NetLong else if netDelta < 0.0 then NetShort else DeltaNeutral
  }

  datatype GreeksResult = GreeksResult(
    netDelta: real, bias: DeltaBias, maxGammaStrike: real, totalTheta: real, totalVega: real,
    atmCallIv: Option<real>, atmPutIv: Option<real>)

  function SpotDistances(chain: seq<Row>, spot: real): (c: seq<real>)
    ensures |c| == |chain| && forall i :: 0 <= i < |chain| ==> c[i] == Abs(chain[i].strike - spot)
  {
    Column(chain, (r: Row) => Abs(r.strike - spot))
  }

  /** The figures calculate_greeks_analysis returns: the ATM row is the
      first nearest to spot, the max-gamma strike the first of largest
      total gamma. */
  function GreeksSummary(chain: seq<Row>, spot: real): (g: GreeksResult)
    requires chain != []
    ensures g.netDelta == NetDelta(chain) && g.bias == BiasOf(g.netDelta)
    ensures exists k :: IsFirstMax(Column(chain, TotalGamma), k) && g.maxGammaStrike == chain[k].strike
    ensures exists a :: IsFirstMin(SpotDistances(chain, spot), a) && g.atmCallIv == chain[a].ce.iv && g.atmPutIv == chain[a].pe.iv
    ensures g.totalTheta == SumReal(chain, ThetaExposure) && g.totalVega == SumReal(chain, VegaExposure)
  {
    var a := ArgMin(SpotDistances(chain, spot));
    var k := ArgMax(Column(chain, TotalGamma));
    var net := NetDelta(chain);
    GreeksResult(net, BiasOf(net), chain[k].strike, SumReal(chain, ThetaExposure), SumReal(chain, VegaExposure),
                 chain[a].ce.iv, chain[a].pe.iv)
  }

  /** A chain table that analytics may extend with computed columns. */
  class ChainFrame {
    var rows: seq<Row>
    var totalGamma: Option<seq<real>>

    constructor (rows: seq<Row>)
      ensures this.rows == rows && totalGamma.None?
    {
      this.rows := rows;
      totalGamma := None;
    }
  }

  /** calculate_greeks_analysis: adds the total_gamma column to the caller's
      table and returns the summary; an empty table raises (None) before
      the column is added. */
  method CalculateGreeksAnalysis(frame: ChainFrame, spot: real) returns (r: Option<GreeksResult>)
    modifies frame
    ensures frame.rows == old(frame.rows)
    ensures frame.rows == [] ==> r.None? && frame.totalGamma == old(frame.totalGamma)
    ensures frame.rows != [] ==>
      r == Some(GreeksSummary(frame.rows, spot)) && frame.totalGamma == Some(Column(frame.rows, TotalGamma))
  {
    if frame.rows == [] {
      return None;
    }
    frame.totalGamma := Some(Column(frame.rows, TotalGamma));
    r := Some(GreeksSummary(frame.rows, spot));
  }

  // ------------------------------------------------------- OI analysis

  function CallOiReal(r: Row): real { r.ce.oi as real }
  function PutOiReal(r: Row): real { r.pe.oi as real }
  function CallChange(r: Row): int { r.ce.oiChange }
  function PutChange(r: Row): int { r.pe.oiChange }

  function Strikes(rows: seq<Row>): (s: seq<real>)
    ensures |s| == |rows| && forall i :: 0 <= i < |rows| ==> s[i] == rows[i].strike
  {
    seq(|rows|, i requires 0 <= i < |rows| => rows[i].strike)
  }

  function Positive(chain: seq<Row>, change: Row -> int): (p: seq<Row>)
    ensures forall i :: 0 <= i < |p| ==> change(p[i]) > 0
    ensures multiset(p) <= multiset(chain)
  {
    Filter(chain, (r: Row) => change(r) > 0)
  }

  /** Sorting by this key puts the largest change first. */
  function ChangeRank(change: Row -> int): Row -> Rank {
    (r: Row) => Rank(-change(r), 0, 0, 0.0)
  }

  lemma DescendingWhenSorted(sorted: seq<Row>, change: Row -> int)
    requires SortedBy(sorted, ChangeRank(change))
    ensures forall i, j :: 0 <= i < j < |sorted| ==> change(sorted[i]) >= change(sorted[j])
  {
    forall i, j | 0 <= i < j < |sorted| ensures change(sorted[i]) >= change(sorted[j]) {
      assert RankLe(ChangeRank(change)(sorted[i]), ChangeRank(change)(sorted[j]));
    }
  }

  /** A permutation of rows with a positive change has only such rows. */
  lemma PositiveKept(positive: seq<Row>, sorted: seq<Row>, change: Row -> int)
    requires forall i :: 0 <= i < |positive| ==> change(positive[i]) > 0
    requires multiset(sorted) == multiset(positive)
    ensures forall i :: 0 <= i < |sorted| ==> change(sorted[i]) > 0
  {
    forall i | 0 <= i < |sorted| ensures change(sorted[i]) > 0 {
      assert sorted[i] in multiset(positive);
      var j :| 0 <= j < |positive| && positive[j] == sorted[i];
    }
  }

  /** No row left in rest changed more than any row in top. */
  ghost predicate BeatsRest(top: seq<Row>, rest: multiset<Row>, change: Row -> int) {
    forall x, i :: x in rest && 0 <= i < |top| ==> change(x) <= change(top[i])
  }

  /** What a prefix of a descending sequence leaves behind is no larger
      than anything in the prefix. */
  lemma PrefixBeatsRest(sorted: seq<Row>, change: Row -> int, m: nat)
    requires m <= |sorted|
    requires forall i, j :: 0 <= i < j < |sorted| ==> change(sorted[i]) >= change(sorted[j])
    ensures multiset(sorted[..m]) <= multiset(sorted)
    ensures BeatsRest(sorted[..m], multiset(sorted) - multiset(sorted[..m]), change)
    ensures forall i, j :: 0 <= i < j < m ==> change(sorted[..m][i]) >= change(sorted[..m][j])
  {
    assert sorted == sorted[..m] + sorted[m..];
    assert multiset(sorted) == multiset(sorted[..m]) + multiset(sorted[m..]);
    forall x, i | x in multiset(sorted) - multiset(sorted[..m]) && 0 <= i < m
      ensures change(x) <= change(sorted[i])
    {
      assert x in multiset(sorted[m..]);
      var j :| 0 <= j < |sorted[m..]| && sorted[m..][j] == x;
      assert sorted[m + j] == x;
    }
  }

  /** Rows with a positive change, largest change first, ties in chain
      order: `df[df[col] > 0].nlargest(n, col)`. */
  function TopByChange(chain: seq<Row>, change: Row -> int, n: nat): (top: seq<Row>)
    ensures |top| == if n < |Positive(chain, change)| then n else |Positive(chain, change)|
    ensures forall i :: 0 <= i < |top| ==> change(top[i]) > 0
    ensures forall i, j :: 0 <= i < j < |top| ==> change(top[i]) >= change(top[j])
    ensures multiset(top) <= multiset(Positive(chain, change))
    ensures BeatsRest(top, multiset(Positive(chain, change)) - multiset(top), change)
  {
    var positive := Positive(chain, change);
    var sorted := SortBy(positive, ChangeRank(change));
    var m := if n < |sorted| then n else |sorted|;
    TopFacts(positive, sorted, change, m);
    sorted[..m]
  }

  /** TopByChange's contract, for the first m rows of a sorting of the
      positive rows. */
  lemma TopFacts(positive: seq<Row>, sorted: seq<Row>, change: Row -> int, m: nat)
    requires forall i :: 0 <= i < |positive| ==> change(positive[i]) > 0
    requires SortedBy(sorted, ChangeRank(change)) && multiset(sorted) == multiset(positive)
    requires m <= |sorted|
    ensures forall i :: 0 <= i < m ==> change(sorted[..m][i]) > 0
    ensures forall i, j :: 0 <= i < j < m ==> change(sorted[..m][i]) >= change(sorted[..m][j])
    ensures multiset(sorted[..m]) <= multiset(positive)
    ensures BeatsRest(sorted[..m], multiset(positive) - multiset(sorted[..m]), change)
  {
    DescendingWhenSorted(sorted, change);
    PositiveKept(positive, sorted, change);
    PrefixBeatsRest(sorted, change, m);
  }

  datatype OiResult = OiResult(callResistance: real, putSupport: real, callBuildups: seq<real>, putBuildups: seq<real>)

  /** get_oi_analysis: the strikes of largest call and put OI (first on
      ties) and the strikes of the five largest positive OI changes per
      side. An empty chain raises (None). */
  function OiAnalysis(chain: seq<Row>): (r: Option<OiResult>)
    ensures r.None? <==> chain == []
    ensures r.Some? ==> exists k :: IsFirstMax(Column(chain, CallOiReal), k) && r.value.callResistance == chain[k].strike
    ensures r.Some? ==> exists k :: IsFirstMax(Column(chain, PutOiReal), k) && r.value.putSupport == chain[k].strike
    ensures r.Some? ==> r.value.callBuildups == Strikes(TopByChange(chain, CallChange, 5))
    ensures r.Some? ==> r.value.putBuildups == Strikes(TopByChange(chain, PutChange, 5))
  {
    if chain == [] then None
    else
      var c := ArgMax(Column(chain, CallOiReal));
      var p := ArgMax(Column(chain, PutOiReal));
      Some(OiResult(chain[c].strike, chain[p].strike,
                    Strikes(TopByChange(chain, CallChange, 5)), Strikes(TopByChange(chain, PutChange, 5))))
  }

  /** A strike reported as a call build-up gained OI against a non-zero
      previous figure. */
  lemma BuildupMeansGain(chain: seq<Row>, i: int)
    requires forall j :: 0 <= j < |chain| ==> chain[j].ce.oiChange == OiChange(chain[j].ce.oi, chain[j].ce.oiPrev)
    requires 0 <= i < |TopByChange(chain, CallChange, 5)|
    ensures var row := TopByChange(chain, CallChange, 5)[i];
      row in chain && row.ce.oiPrev != 0 && row.ce.oi > row.ce.oiPrev
  {
    var top := TopByChange(chain, CallChange, 5);
    assert top[i] in multiset(Positive(chain, CallChange));
  }

  // ------------------------------------------------------ Futures basis

  datatype BasisBand = StrongPremium | MildPremium | BearishDiscount | FairPricing

  /** _interpret_basis, by band. */
  function InterpretBasis(basisPct: real): (b: BasisBand)
    ensures b == StrongPremium <==> basisPct > 0.5
    ensures b == MildPremium <==> 0.2 < basisPct <= 0.5
    ensures b == BearishDiscount <==> basisPct < -0.2
    ensures b == FairPricing <==> -0.2 <= basisPct <= 0.2
  {
    if basisPct > 0.5 then StrongPremium
    else if basisPct > 0.2 then MildPremium
    else if basisPct < -0.2 then BearishDiscount
    else FairPricing
  }

  /** days_to_expiry after the floor at 1. */
  function ClampDays(days: int): (d: int)
    ensures d >= 1
    ensures days >= 1 ==> d == days
  {
    if days <= 0 then 1 else days
  }

  datatype BasisResult = BasisResult(futuresPrice: real, spotPrice: real, basis: real, basisPct: real,
                                     annualCarry: real, band: BasisBand)

  /** The basis figures of get_futures_data for a non-zero spot. */
  function FuturesBasis(futuresPrice: real, spot: real, daysToExpiry: int): (b: BasisResult)
    requires spot != 0.0
    ensures b.basis == futuresPrice - spot
    ensures b.basisPct * spot == b.basis * 100.0
    ensures b.annualCarry * (ClampDays(daysToExpiry) as real) == b.basisPct * 365.0
    ensures b.band == InterpretBasis(b.basisPct)
  {
    var basis := futuresPrice - spot;
    var pct := basis / spot * 100.0;
    var days := ClampDays(daysToExpiry);
    BasisResult(futuresPrice, spot, basis, pct, pct * (365.0 / (days as real)), InterpretBasis(pct))
  }

  /** Futures at 105 against spot 100: a 5% premium, strong bullish. */
  lemma BasisExample()
    ensures FuturesBasis(105.0, 100.0, 30).basisPct == 5.0
    ensures FuturesBasis(105.0, 100.0, 30).band == StrongPremium
  {
  }
}
