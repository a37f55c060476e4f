/** The application's session store (StateManager): a dictionary of
    session values that survives page reloads, filled with defaults on
    start-up, and the rule that normalises the active ticker. */
module SessionState {
  import opened Wrappers
  import opened Text
  import opened JsonValues

  type Session = map<string, Json>

  /** DEFAULTS in its declared order. */
  const Defaults: seq<(string, Json)> := [
    ("active_ticker", JString("TCS.NS")),
    ("active_plugin", JString("Portfolio Pro")),
    ("portfolio_cache", JNull),
    ("market_breadth_cache", JNull),
    ("last_refresh", JInt(0)),
    ("user_settings", JObject([("theme", JString("dark")), ("refresh_rate", JInt(60))]))
  ]

  const DefaultTicker: string := "TCS.NS"

  // -------------------------------------------------------- defaults

  /** One step of init: the default is written only when its key is absent. */
  function FillOne(m: Session, d: (string, Json)): (r: Session)
    ensures d.0 in r && r.Keys == m.Keys + {d.0}
    ensures forall k :: k in m ==> r[k] == m[k]
    ensures d.0 !in m ==> r[d.0] == d.1
  {
    if d.0 in m then m else m[d.0 := d.1]
  }

  /** The session after init has walked the first |defs| defaults. */
  function Fill(m: Session, defs: seq<(string, Json)>): Session
    decreases |defs|
  {
    if defs == [] then m else FillOne(Fill(m, defs[..|defs| - 1]), defs[|defs| - 1])
  }

  /** The keys named by a list of defaults. */
  function DefaultKeys(defs: seq<(string, Json)>): set<string> {
    set t | 0 <= t < |defs| :: defs[t].0
  }

  /** After filling, the keys are the old keys plus every default key;
      keys that were present keep their values. */
  lemma {:induction false} FillKeeps(m: Session, defs: seq<(string, Json)>)
    ensures Fill(m, defs).Keys == m.Keys + DefaultKeys(defs)
    ensures forall k :: k in m ==> Fill(m, defs)[k] == m[k]
    decreases |defs|
  {
    if defs != [] {
      var init := defs[..|defs| - 1];
      FillKeeps(m, init);
      assert DefaultKeys(defs) == DefaultKeys(init) + {defs[|defs| - 1].0} by {
        forall k | k in DefaultKeys(defs) ensures k in DefaultKeys(init) + {defs[|defs| - 1].0} {
          var t :| 0 <= t < |defs| && defs[t].0 == k;
          if t < |defs| - 1 {
            assert init[t].0 == k;
          }
        }
        forall k | k in DefaultKeys(init) ensures k in DefaultKeys(defs) {
          var t :| 0 <= t < |init| && init[t].0 == k;
          assert defs[t].0 == k;
        }
      }
    }
  }

  /** A key that was absent and is named once takes its default. */
  lemma {:induction false} FillNew(m: Session, defs: seq<(string, Json)>, t: nat)
    requires t < |defs| && defs[t].0 !in m
    requires forall s :: 0 <= s < |defs| && s != t ==> defs[s].0 != defs[t].0
    ensures defs[t].0 in Fill(m, defs) && Fill(m, defs)[defs[t].0] == defs[t].1
    decreases |defs|
  {
    var init := defs[..|defs| - 1];
    if t < |defs| - 1 {
      FillNew(m, init, t);
      FillKeeps(m, init);
    } else {
      FillKeeps(m, init);
      assert defs[t].0 !in DefaultKeys(init);
    }
  }

  /** Filling twice is filling once. */
  lemma FillIdempotent(m: Session, defs: seq<(string, Json)>)
    ensures Fill(Fill(m, defs), defs) == Fill(m, defs)
  {
    var once := Fill(m, defs);
    FillKeeps(m, defs);
    FillKeeps(once, defs);
  }

  // ------------------------------------------------------ ticker rule

  /** The test set_active_ticker applies before appending ".NS". */
  predicate NeedsSuffix(u: string) {
    !EndsWith(u, ".NS") && !StartsWith(u, "^") && !Contains(u, "USD")
  }

  /** set_active_ticker's normalisation: upper-case, strip, then append
      ".NS" unless the ticker already ends with it, is an index ("^...")
      or is a dollar pair ("...USD..."). */
  function NormalizeTicker(ticker: string): (r: string)
    ensures var u := Strip(Upper(ticker));
      (NeedsSuffix(u) ==> r == u + ".NS") && (!NeedsSuffix(u) ==> r == u)
  {
    var u := Strip(Upper(ticker));
    if NeedsSuffix(u) then u + ".NS" else u
  }

  /** A stored ticker always ends with ".NS", starts with "^" or contains
      "USD". */
  lemma StoredTickerForm(ticker: string)
    ensures !NeedsSuffix(NormalizeTicker(ticker))
  {
    var u := Strip(Upper(ticker));
    if NeedsSuffix(u) {
      var r := u + ".NS";
      assert r[|r| - 3..] == ".NS";
    }
  }

  /** upper().strip() yields an upper-case string. */
  lemma CleanIsUpper(ticker: string)
    ensures IsUpper(Strip(Upper(ticker)))
  {
    var up := Upper(ticker);
    var l := StripLeft(up);
    SliceUpper(up, |up| - |l|, |up|);
    assert up[|up| - |l|..|up|] == l;
    var r := StripRight(l);
    SliceUpper(l, 0, |r|);
    assert l[0..|r|] == r;
  }

  /** A normalised ticker is upper-case and has no whitespace at either
      end. */
  lemma NormalizedIsClean(ticker: string)
    ensures IsUpper(NormalizeTicker(ticker))
    ensures var r := NormalizeTicker(ticker); r == [] || (!IsSpace(r[0]) && !IsSpace(r[|r| - 1]))
  {
    var u := Strip(Upper(ticker));
    CleanIsUpper(ticker);
    if NeedsSuffix(u) {
      SuffixedIsClean(u);
    }
  }

  /** Appending ".NS" to a clean ticker keeps it clean. */
  lemma SuffixedIsClean(u: string)
    requires IsUpper(u) && (u == [] || !IsSpace(u[0]))
    ensures var r := u + ".NS"; IsUpper(r) && !IsSpace(r[0]) && !IsSpace(r[|r| - 1])
  {
    var r := u + ".NS";
    AppendUpper(u, ".NS");
    assert r[0] == (if u == [] then '.' else u[0]);
    assert r[|r| - 1] == 'S';
  }

  /** Normalising a normalised ticker changes nothing. */
  lemma NormalizeIdempotent(ticker: string)
    ensures NormalizeTicker(NormalizeTicker(ticker)) == NormalizeTicker(ticker)
  {
    var r := NormalizeTicker(ticker);
    NormalizedIsClean(ticker);
    StoredTickerForm(ticker);
    UpperIsFixed(r);
    StripTrimmed(r);
  }

  // --------------------------------------------------- the store itself

  /** StateManager over the session dictionary. */
  class StateManager {
    var session: Session

    constructor (initial: Session)
      ensures session == initial
    {
      session := initial;
    }

    /** init: walks DEFAULTS in order and writes each default whose key is
        absent. */
    method Init()
      modifies this
      ensures session == Fill(old(session), Defaults)
    {
      var defs := Defaults;
      var j := 0;
      while j < |defs|
        invariant 0 <= j <= |defs|
        invariant session == Fill(old(session), defs[..j])
      {
        assert defs[..j + 1][..j] == defs[..j];
        var d := defs[j];
        if d.0 !in session {
          session := session[d.0 := d.1];
        }
        j := j + 1;
      }
      assert defs[..j] == defs;
    }

    /** get: the stored value, None for a missing key. */
    method Get(key: string) returns (v: Json)
      ensures key in session ==> v == session[key]
      ensures key !in session ==> v == JNull
    {
      v := if key in session then session[key] else JNull;
    }

    /** set: overwrites one entry. */
    method Set(key: string, value: Json)
      modifies this
      ensures session == old(session)[key := value]
    {
      session := session[key := value];
    }

    /** get_active_ticker, with 'TCS.NS' when no ticker was ever stored. */
    method GetActiveTicker() returns (v: Json)
      ensures "active_ticker" in session ==> v == session["active_ticker"]
      ensures "active_ticker" !in session ==> v == JString(DefaultTicker)
    {
      v := if "active_ticker" in session then session["active_ticker"] else JString(DefaultTicker);
    }

    /** set_active_ticker: stores the normalised ticker. */
    method SetActiveTicker(ticker: string)
      modifies this
      ensures session == old(session)["active_ticker" := JString(NormalizeTicker(ticker))]
    {
      session := session["active_ticker" := JString(NormalizeTicker(ticker))];
    }
  }

  /** After init every default key is present, keys that were present keep
      their values, no other key appears, and an absent key holds its
      default. */
  lemma DefaultKeysDistinct()
    ensures forall s, t :: 0 <= s < t < |Defaults| ==> Defaults[s].0 != Defaults[t].0
  {
  }

  lemma InitEffect(m: Session)
    ensures Fill(m, Defaults).Keys == m.Keys + DefaultKeys(Defaults)
    ensures forall k :: k in m ==> Fill(m, Defaults)[k] == m[k]
    ensures forall t :: 0 <= t < |Defaults| && Defaults[t].0 !in m ==>
      Fill(m, Defaults)[Defaults[t].0] == Defaults[t].1
  {
    FillKeeps(m, Defaults);
    forall t | 0 <= t < |Defaults| && Defaults[t].0 !in m
      ensures Fill(m, Defaults)[Defaults[t].0] == Defaults[t].1
    {
      DefaultKeysDistinct();
      FillNew(m, Defaults, t);
    }
  }
}
