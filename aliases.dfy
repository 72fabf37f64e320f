/**
 * The three alias tables of the order CLI and the `table.get(alias, alias)`
 * lookup that turns a human-friendly name into the code the broker expects.
 */
module Aliases {

  /** Exchange segment aliases. */
  const SegmentMap: map<string, string> := map[
    "nse_cm" := "nse_cm",
    "NSE" := "nse_cm",
    "nse" := "nse_cm",
    "BSE" := "bse_cm",
    "bse" := "bse_cm",
    "bse_cm" := "bse_cm",
    "NFO" := "nse_fo",
    "nse_fo" := "nse_fo",
    "nfo" := "nse_fo",
    "BFO" := "bse_fo",
    "bse_fo" := "bse_fo",
    "bfo" := "bse_fo",
    "CDS" := "cde_fo",
    "cde_fo" := "cde_fo",
    "cds" := "cde_fo",
    "BCD" := "bcs-fo",
    "bcs-fo" := "bcs-fo",
    "bcd" := "bcs-fo",
    "MCX" := "mcx",
    "mcx" := "mcx",
    "mcx_fo" := "mcx"
  ]

  /** Product aliases. */
  const ProductMap: map<string, string> := map[
    "Normal" := "NRML",
    "NRML" := "NRML",
    "CNC" := "CNC",
    "cnc" := "CNC",
    "Cash and Carry" := "CNC",
    "MIS" := "MIS",
    "mis" := "MIS",
    "INTRADAY" := "INTRADAY",
    "intraday" := "INTRADAY",
    "Cover Order" := "CO",
    "co" := "CO",
    "CO" := "CO",
    "BO" := "BO",
    "Bracket Order" := "BO",
    "bo" := "BO"
  ]

  /** Order type aliases. */
  const OrderTypeMap: map<string, string> := map[
    "Limit" := "L",
    "L" := "L",
    "l" := "L",
    "MKT" := "MKT",
    "mkt" := "MKT",
    "Market" := "MKT",
    "sl" := "SL",
    "SL" := "SL",
    "Stop loss limit" := "SL",
    "Stop loss market" := "SL-M",
    "SL-M" := "SL-M",
    "sl-m" := "SL-M",
    "Spread" := "SP",
    "SP" := "SP",
    "sp" := "SP",
    "2L" := "2L",
    "2l" := "2L",
    "Two Leg" := "2L",
    "3L" := "3L",
    "3l" := "3L",
    "Three leg" := "3L"
  ]

  /** `table.get(alias, alias)`: the code of a known alias, the alias itself otherwise. */
  function Normalize(table: map<string, string>, alias: string): (code: string)
    ensures alias in table ==> code in table.Values
    ensures alias !in table ==> code == alias
  {
    if alias in table then table[alias] else alias
  }

  /** Every code a table produces is itself a key of the table that maps to itself. */
  ghost predicate CodesAreFixedPoints(table: map<string, string>) {
    forall alias :: alias in table ==> table[alias] in table && table[table[alias]] == table[alias]
  }

  /** The codes each table produces. */
  const SegmentCodes: set<string> := {"nse_cm", "bse_cm", "nse_fo", "bse_fo", "cde_fo", "bcs-fo", "mcx"}
  const ProductCodes: set<string> := {"NRML", "CNC", "MIS", "INTRADAY", "CO", "BO"}
  const OrderTypeCodes: set<string> := {"L", "MKT", "SL", "SL-M", "SP", "2L", "3L"}

  /** A table whose entries all land in a set of codes, each of which it maps to itself, is closed. */
  lemma ClosedByCodes(table: map<string, string>, codes: set<string>)
    requires forall alias :: alias in table ==> table[alias] in codes
    requires forall c :: c in codes ==> c in table && table[c] == c
    ensures CodesAreFixedPoints(table)
  {
  }

  lemma SegmentMapClosed()
    ensures forall alias :: alias in SegmentMap ==> SegmentMap[alias] in SegmentCodes
    ensures CodesAreFixedPoints(SegmentMap)
  {
    assert forall alias :: alias in SegmentMap ==> SegmentMap[alias] in SegmentCodes;
    assert forall c :: c in SegmentCodes ==> c in SegmentMap && SegmentMap[c] == c;
    ClosedByCodes(SegmentMap, SegmentCodes);
  }

  lemma ProductMapClosed()
    ensures forall alias :: alias in ProductMap ==> ProductMap[alias] in ProductCodes
    ensures CodesAreFixedPoints(ProductMap)
  {
    assert forall alias :: alias in ProductMap ==> ProductMap[alias] in ProductCodes;
    assert forall c :: c in ProductCodes ==> c in ProductMap && ProductMap[c] == c;
    ClosedByCodes(ProductMap, ProductCodes);
  }

  lemma OrderTypeMapClosed()
    ensures forall alias :: alias in OrderTypeMap ==> OrderTypeMap[alias] in OrderTypeCodes
    ensures CodesAreFixedPoints(OrderTypeMap)
  {
    assert forall alias :: alias in OrderTypeMap ==> OrderTypeMap[alias] in OrderTypeCodes;
    assert forall c :: c in OrderTypeCodes ==> c in OrderTypeMap && OrderTypeMap[c] == c;
    ClosedByCodes(OrderTypeMap, OrderTypeCodes);
  }

  /** A known alias gives its table entry; an unknown alias comes back unchanged. */
  lemma NormalizeLookup(table: map<string, string>, alias: string)
    ensures alias in table ==> Normalize(table, alias) == table[alias]
    ensures alias !in table ==> Normalize(table, alias) == alias
  {
  }

  /** Normalising a normalised value changes nothing. */
  lemma NormalizeIdempotent(table: map<string, string>, alias: string)
    requires CodesAreFixedPoints(table)
    ensures Normalize(table, Normalize(table, alias)) == Normalize(table, alias)
  {
  }

  lemma NormalizeExamples()
    ensures Normalize(SegmentMap, "NFO") == "nse_fo"
    ensures Normalize(SegmentMap, "XYZ") == "XYZ"
    ensures Normalize(ProductMap, "Normal") == "NRML"
    ensures Normalize(ProductMap, "MIS") == "MIS"
    ensures Normalize(OrderTypeMap, "Limit") == "L"
  {
    assert SegmentMap["NFO"] == "nse_fo";
    assert ProductMap["Normal"] == "NRML" && ProductMap["MIS"] == "MIS";
    assert OrderTypeMap["Limit"] == "L";
  }
}
