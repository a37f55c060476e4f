/** The instrument master: per application symbol, an optional SPOT
    descriptor and four contract lists (index options, index futures,
    stock options, stock futures). It is the value the offline builder
    writes and the resolvers read. */
module Instruments {
  import opened Wrappers
  import opened Calendar

  /** The four contract lists, OPTIDX, FUTIDX, OPTSTK and FUTSTK. */
  datatype Category = OptIdx | FutIdx | OptStk | FutStk {
    predicate IsOption() { this == OptIdx || this == OptStk }
    predicate IsFuture() { this == FutIdx || this == FutStk }
  }

  /** option_type: "CE" (call) or "PE" (put). */
  datatype Side = CE | PE

  datatype SpotEntry = SpotEntry(instrumentKey: Option<string>, name: Option<string>, tradingSymbol: Option<string>)

  /** One contract. Options carry a strike and an option type; futures
      carry neither. */
  datatype Contract = Contract(
    expiry: Date,
    instrumentKey: Option<string>,
    monthly: bool,
    weekly: bool,
    tradingSymbol: Option<string>,
    strike: Option<real>,
    optionType: Option<Side>)

  /** A list category that is absent from `lists` is a key missing from the
      symbol's JSON object. */
  datatype SymbolEntry = SymbolEntry(spot: Option<SpotEntry>, lists: map<Category, seq<Contract>>)

  type Master = map<string, SymbolEntry>

  /** `symbol_data.get(category, [])` */
  function ListOf(e: SymbolEntry, c: Category): seq<Contract> {
    if c in e.lists then e.lists[c] else []
  }

  /** Python truthiness of an optional string: None and "" are false. */
  predicate Truthy(s: Option<string>) {
    s.Some? && s.value != ""
  }
}
