/** Option-chain rows and the shaping of the provider's chain items into
    rows (get_option_chain, the loop that builds `rows`). */
module Chain {
  import opened Wrappers

  /** An item's market_data object; absent fields are None. */
  datatype MarketQuote = MarketQuote(
    ltp: Option<real>, volume: Option<int>, oi: Option<int>, prevOi: Option<int>,
    bid: Option<real>, ask: Option<real>)

  /** An item's option_greeks object. */
  datatype Greeks = Greeks(iv: Option<real>, delta: Option<real>, gamma: Option<real>,
                           theta: Option<real>, vega: Option<real>)

  /** call_options / put_options of one chain item. */
  datatype RawLeg = RawLeg(market: Option<MarketQuote>, greeks: Option<Greeks>)

  datatype ChainItem = ChainItem(strikePrice: Option<real>, call: Option<RawLeg>, put: Option<RawLeg>)

  /** The CE_* or PE_* columns of one row. */
  datatype Leg = Leg(
    ltp: Option<real>, volume: int, oi: int, oiPrev: int, bid: Option<real>, ask: Option<real>,
    iv: Option<real>, delta: Option<real>, gamma: Option<real>, theta: Option<real>, vega: Option<real>,
    oiChange: int)

  datatype Row = Row(strike: real, ce: Leg, pe: Leg)

  /** CE_OI_Change / PE_OI_Change: the difference when both values are
      truthy (non-zero), 0 otherwise. */
  function OiChange(oi: int, oiPrev: int): (c: int)
    ensures c > 0 ==> oiPrev != 0 && oi > oiPrev
    ensures c < 0 ==> oi != 0 && oi < oiPrev
    ensures oi != 0 && oiPrev != 0 ==> c + oiPrev == oi
    ensures oi == 0 || oiPrev == 0 ==> c == 0
  {
    if oi != 0 && oiPrev != 0 then oi - oiPrev else 0
  }

  /** One leg's columns: market_data fields as given, with volume, oi and
      prev_oi defaulting to 0 and the rest to None when the leg, its
      market_data or its option_greeks object is missing. */
  function ShapeLeg(raw: Option<RawLeg>): (leg: Leg)
    ensures raw.Some? && raw.value.market.Some? ==>
      var m := raw.value.market.value;
      leg.ltp == m.ltp && leg.bid == m.bid && leg.ask == m.ask &&
      (m.volume.Some? ==> leg.volume == m.volume.value) &&
      (m.oi.Some? ==> leg.oi == m.oi.value) &&
      (m.prevOi.Some? ==> leg.oiPrev == m.prevOi.value)
    ensures raw.None? || raw.value.market.None? ==>
      leg.ltp.None? && leg.bid.None? && leg.ask.None? && leg.volume == 0 && leg.oi == 0 && leg.oiPrev == 0
    ensures raw.Some? && raw.value.market.Some? ==>
      (raw.value.market.value.volume.None? ==> leg.volume == 0) &&
      (raw.value.market.value.oi.None? ==> leg.oi == 0) &&
      (raw.value.market.value.prevOi.None? ==> leg.oiPrev == 0)
    ensures raw.Some? && raw.value.greeks.Some? ==>
      var g := raw.value.greeks.value;
      leg.iv == g.iv && leg.delta == g.delta && leg.gamma == g.gamma && leg.theta == g.theta && leg.vega == g.vega
    ensures raw.None? || raw.value.greeks.None? ==>
      leg.iv.None? && leg.delta.None? && leg.gamma.None? && leg.theta.None? && leg.vega.None?
    ensures leg.oiChange == OiChange(leg.oi, leg.oiPrev)
  {
    var m := if raw.Some? && raw.value.market.Some? then raw.value.market.value
             else MarketQuote(None, None, None, None, None, None);
    var g := if raw.Some? && raw.value.greeks.Some? then raw.value.greeks.value
             else Greeks(None, None, None, None, None);
    var oi := m.oi.GetOr(0);
    var prev := m.prevOi.GetOr(0);
    Leg(m.ltp, m.volume.GetOr(0), oi, prev, m.bid, m.ask, g.iv, g.delta, g.gamma, g.theta, g.vega,
        OiChange(oi, prev))
  }

  /** The row for one chain item; items without a strike_price are skipped. */
  function ShapeRow(item: ChainItem): (r: Option<Row>)
    ensures r.Some? <==> item.strikePrice.Some?
    ensures r.Some? ==> r.value.strike == item.strikePrice.value
    ensures r.Some? ==> r.value.ce == ShapeLeg(item.call) && r.value.pe == ShapeLeg(item.put)
  {
    if item.strikePrice.None? then None
    else Some(Row(item.strikePrice.value, ShapeLeg(item.call), ShapeLeg(item.put)))
  }

  ghost predicate RowFrom(items: seq<ChainItem>, r: Row) {
    exists i :: 0 <= i < |items| && ShapeRow(items[i]) == Some(r)
  }

  function CountWithStrike(items: seq<ChainItem>): nat {
    if items == [] then 0
    else (if items[0].strikePrice.Some? then 1 else 0) + CountWithStrike(items[1..])
  }

  function RowsOf(r: Option<Row>): seq<Row> {
    if r.Some? then [r.value] else []
  }

  /** The rows, in item order, of the items that have a strike. */
  function ShapedRows(items: seq<ChainItem>): seq<Row> {
    if items == [] then [] else RowsOf(ShapeRow(items[0])) + ShapedRows(items[1..])
  }

  /** Exactly the items with a strike give a row, and every row comes from
      one of them. */
  lemma {:induction false} ShapedRowsMembers(items: seq<ChainItem>)
    ensures |ShapedRows(items)| == CountWithStrike(items)
    ensures forall r :: r in ShapedRows(items) <==> RowFrom(items, r)
    decreases |items|
  {
    if items != [] {
      ShapedRowsMembers(items[1..]);
      forall r ensures r in ShapedRows(items) <==> RowFrom(items, r) {
        if RowFrom(items, r) {
          var i :| 0 <= i < |items| && ShapeRow(items[i]) == Some(r);
          if i > 0 { assert items[1..][i - 1] == items[i]; }
        }
        if r in ShapedRows(items[1..]) {
          var i :| 0 <= i < |items[1..]| && ShapeRow(items[1..][i]) == Some(r);
          assert items[i + 1] == items[1..][i];
        }
      }
    }
  }

  lemma {:induction false} ShapedRowsSnoc(items: seq<ChainItem>, x: ChainItem)
    ensures ShapedRows(items + [x]) == ShapedRows(items) + RowsOf(ShapeRow(x))
    decreases |items|
  {
    if items == [] {
      assert [] + [x] == [x];
    } else {
      assert (items + [x])[1..] == items[1..] + [x];
      ShapedRowsSnoc(items[1..], x);
    }
  }

  /** get_option_chain's loop: appends one row per item that has a strike. */
  method ShapeChain(items: seq<ChainItem>) returns (rows: seq<Row>)
    ensures rows == ShapedRows(items)
  {
    rows := [];
    var i := 0;
    while i < |items|
      invariant 0 <= i <= |items|
      invariant rows == ShapedRows(items[..i])
    {
      ShapedRowsSnoc(items[..i], items[i]);
      assert items[..i + 1] == items[..i] + [items[i]];
      var row := ShapeRow(items[i]);
      if row.Some? {
        rows := rows + [row.value];
      }
      i := i + 1;
    }
    assert items[..i] == items;
  }
}
