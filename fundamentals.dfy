/** The fundamental scanner's rule set: the nine key metrics read from a
    company's info dictionary, the red flags and positive signals drawn
    from them by fixed thresholds, and the symbol form the ratio screener
    uses. */
module Fundamentals {
  import opened Wrappers
  import opened Text

  /** The numeric part of a company's info dictionary: a missing key is
      absent from the map. */
  type Info = map<string, real>

  /** get_key_metrics' result: one optional number per metric. */
  datatype KeyMetrics = KeyMetrics(
    peRatio: Option<real>,
    forwardPe: Option<real>,
    profitMargin: Option<real>,
    roe: Option<real>,
    debtToEquity: Option<real>,
    currentRatio: Option<real>,
    revenueGrowth: Option<real>,
    institutionalOwnership: Option<real>,
    dividendYield: Option<real>)

  /** A red flag or a positive signal: its title and its description. */
  datatype Note = Note(title: string, desc: string)

  datatype Signals = Signals(redFlags: seq<Note>, positiveSignals: seq<Note>)

  const NegativeMargin := Note("Negative Profit Margin", "Company is losing money")
  const LowInstitutional := Note("Low Institutional Holding", "< 10% held by institutions")
  const HighRoe := Note("High ROE", "> 15% Return on Equity")
  const StrongGrowth := Note("Strong Growth", "> 15% Revenue Growth")

  /** `info.get(key)` */
  function Lookup(info: Info, key: string): (r: Option<real>)
    ensures r.Some? <==> key in info
    ensures r.Some? ==> r.value == info[key]
  {
    if key in info then Some(info[key]) else None
  }

  /** get_key_metrics: each metric is the info entry under its own key
      (trailingPE, forwardPE, profitMargins, returnOnEquity, debtToEquity,
      currentRatio, revenueGrowth, heldPercentInstitutions, dividendYield),
      None where the key is missing. */
  function GetKeyMetrics(info: Info): (m: KeyMetrics)
    ensures m.peRatio == Lookup(info, "trailingPE") && m.forwardPe == Lookup(info, "forwardPE")
    ensures m.profitMargin == Lookup(info, "profitMargins") && m.roe == Lookup(info, "returnOnEquity")
    ensures m.debtToEquity == Lookup(info, "debtToEquity") && m.currentRatio == Lookup(info, "currentRatio")
    ensures m.revenueGrowth == Lookup(info, "revenueGrowth")
    ensures m.institutionalOwnership == Lookup(info, "heldPercentInstitutions")
    ensures m.dividendYield == Lookup(info, "dividendYield")
    ensures m.profitMargin.Some? <==> "profitMargins" in info
    ensures m.roe.Some? <==> "returnOnEquity" in info
    ensures m.revenueGrowth.Some? <==> "revenueGrowth" in info
    ensures m.institutionalOwnership.Some? <==> "heldPercentInstitutions" in info
    ensures m.debtToEquity.Some? <==> "debtToEquity" in info
  {
    KeyMetrics(
      Lookup(info, "trailingPE"),
      Lookup(info, "forwardPE"),
      Lookup(info, "profitMargins"),
      Lookup(info, "returnOnEquity"),
      Lookup(info, "debtToEquity"),
      Lookup(info, "currentRatio"),
      Lookup(info, "revenueGrowth"),
      Lookup(info, "heldPercentInstitutions"),
      Lookup(info, "dividendYield"))
  }

  /** Python truthiness of an optional number: None and 0 are false. */
  predicate NumTruthy(x: Option<real>) {
    x.Some? && x.value != 0.0
  }

  /** The signals as the rules describe them, each stated on the metric
      alone. */
  function ExpectedSignals(m: KeyMetrics): Signals {
    Signals(
      (if m.profitMargin.Some? && m.profitMargin.value < 0.0 then [NegativeMargin] else []) +
      (if m.institutionalOwnership.Some? && m.institutionalOwnership.value != 0.0 &&
          m.institutionalOwnership.value < 0.1 then [LowInstitutional] else []),
      (if m.roe.Some? && m.roe.value > 0.15 then [HighRoe] else []) +
      (if m.revenueGrowth.Some? && m.revenueGrowth.value > 0.15 then [StrongGrowth] else []))
  }

  /** detect_signals: the flags and signals are appended rule by rule, each
      rule guarded by the metric's truthiness and its threshold. The
      debt-to-equity rule has an empty body and adds nothing. */
  method DetectSignals(info: Info) returns (r: Signals)
    ensures r == ExpectedSignals(GetKeyMetrics(info))
  {
    var m := GetKeyMetrics(info);
    var flags: seq<Note> := [];
    var signals: seq<Note> := [];
    if NumTruthy(m.profitMargin) && m.profitMargin.value < 0.0 {
      flags := flags + [NegativeMargin];
    }
    if NumTruthy(m.institutionalOwnership) && m.institutionalOwnership.value < 0.1 {
      flags := flags + [LowInstitutional];
    }
    if NumTruthy(m.roe) && m.roe.value > 0.15 {
      signals := signals + [HighRoe];
    }
    if NumTruthy(m.revenueGrowth) && m.revenueGrowth.value > 0.15 {
      signals := signals + [StrongGrowth];
    }
    r := Signals(flags, signals);
  }

  /** The margin flag is raised exactly when profitMargins is present and
      negative; the institutional flag exactly when the holding is present,
      non-zero and under 10%, so a holding of exactly 0 is not flagged. */
  lemma FlagRules(info: Info)
    ensures NegativeMargin in ExpectedSignals(GetKeyMetrics(info)).redFlags <==>
      "profitMargins" in info && info["profitMargins"] < 0.0
    ensures LowInstitutional in ExpectedSignals(GetKeyMetrics(info)).redFlags <==>
      "heldPercentInstitutions" in info && info["heldPercentInstitutions"] != 0.0 &&
      info["heldPercentInstitutions"] < 0.1
  {
  }

  /** "High ROE" exactly when returnOnEquity exceeds 0.15, "Strong Growth"
      exactly when revenueGrowth does. */
  lemma SignalRules(info: Info)
    ensures HighRoe in ExpectedSignals(GetKeyMetrics(info)).positiveSignals <==>
      "returnOnEquity" in info && info["returnOnEquity"] > 0.15
    ensures StrongGrowth in ExpectedSignals(GetKeyMetrics(info)).positiveSignals <==>
      "revenueGrowth" in info && info["revenueGrowth"] > 0.15
  {
  }

  /** At most two flags, margin before institutional; at most two signals,
      ROE before growth. */
  lemma SignalOrder(m: KeyMetrics)
    ensures |ExpectedSignals(m).redFlags| <= 2 && |ExpectedSignals(m).positiveSignals| <= 2
    ensures |ExpectedSignals(m).redFlags| == 2 ==>
      ExpectedSignals(m).redFlags == [NegativeMargin, LowInstitutional]
    ensures |ExpectedSignals(m).positiveSignals| == 2 ==>
      ExpectedSignals(m).positiveSignals == [HighRoe, StrongGrowth]
  {
  }

  /** Debt-to-equity never contributes a flag or a signal. */
  lemma DebtIgnored(m: KeyMetrics, d: Option<real>)
    ensures ExpectedSignals(m.(debtToEquity := d)) == ExpectedSignals(m)
  {
  }

  // ----------------------------------------------------- screener symbol

  /** ScreenerFetcher's symbol: every ".NS" removed, then upper-cased. */
  function ScreenerSymbol(symbol: string): (r: string)
    ensures IsUpper(r)
  {
    Upper(RemoveAll(symbol, ".NS"))
  }

  /** A trailing ".NS" never joins with the text before it, so removing
      every ".NS" from t + ".NS" is removing every ".NS" from t. */
  lemma {:induction false} RemoveSuffix(t: string)
    ensures RemoveAll(t + ".NS", ".NS") == RemoveAll(t, ".NS")
    decreases |t|
  {
    var p := ".NS";
    if t == [] {
      assert t + p == p;
      assert StartsWith(p, p);
      assert RemoveAll(p[|p|..], p) == [];
    } else if |t| >= 3 && StartsWith(t, p) {
      assert (t + p)[..3] == t[..3];
      assert (t + p)[3..] == t[3..] + p;
      RemoveSuffix(t[3..]);
    } else {
      assert !StartsWith(t + p, p) by {
        if |t| < 3 {
          assert (t + p)[|t|] == '.';
        } else {
          assert (t + p)[..3] == t[..3];
        }
      }
      assert (t + p)[1..] == t[1..] + p;
      RemoveSuffix(t[1..]);
    }
  }

  /** The exchange suffix is dropped: "TCS.NS" gives "TCS". */
  lemma ScreenerDropsSuffix(t: string)
    ensures ScreenerSymbol(t + ".NS") == ScreenerSymbol(t)
  {
    RemoveSuffix(t);
  }

  /** Text in which the pattern's second character never occurs holds no
      occurrence of the pattern. */
  lemma {:induction false} RemoveAllAbsent(s: string, pattern: string)
    requires |pattern| >= 2 && forall i :: 0 <= i < |s| ==> s[i] != pattern[1]
    ensures RemoveAll(s, pattern) == s
    decreases |s|
  {
    if s != [] {
      assert !StartsWith(s, pattern) by {
        if |pattern| <= |s| {
          assert s[..|pattern|][1] == s[1];
        }
      }
      RemoveAllAbsent(s[1..], pattern);
      assert s == [s[0]] + s[1..];
    }
  }

  /** Removal comes before upper-casing, so a lower-case ".ns" is kept and
      comes out as ".NS". */
  lemma ScreenerKeepsLowerSuffix()
    ensures ScreenerSymbol("tcs.ns") == "TCS.NS"
  {
    RemoveAllAbsent("tcs.ns", ".NS");
  }
}
