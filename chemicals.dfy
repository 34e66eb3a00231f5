/** The static catalogue of tradeable chemicals (src/data/Chemicals.ts). */
module Chemicals {
  import opened Results

  /** One chemical: its id, the price to buy one unit (0: not purchasable), the price
      obtained for selling one unit (0: not sellable). */
  datatype ChemicalData = ChemicalData(id: string, buyCost: int, sellPrice: int)

  const RAW_CHEMICAL_A: ChemicalData := ChemicalData("Raw Chemical A", 10, 0)
  const PRODUCT_B: ChemicalData := ChemicalData("Product B", 0, 25)
  const PRODUCT_C: ChemicalData := ChemicalData("Product C", 0, 60)

  /** The catalogue, keyed by chemical id. */
  const CHEMICAL_DATA: map<string, ChemicalData> := map[
    "Raw Chemical A" := RAW_CHEMICAL_A,
    "Product B" := PRODUCT_B,
    "Product C" := PRODUCT_C
  ]

  /** Looks a chemical up by id; an unknown id is the error the source throws. */
  function GetChemicalData(id: string): (r: Result<ChemicalData>)
    ensures r.Ok? <==> id in CHEMICAL_DATA
    ensures r.Ok? ==> r.value.id == id
    ensures r.Err? ==> r.message == "Chemical data not found for ID: " + id
  {
    if id in CHEMICAL_DATA then Ok(CHEMICAL_DATA[id])
    else Err("Chemical data not found for ID: " + id)
  }

  /** Every catalogued chemical has non-negative prices. */
  lemma PricesNonNegative(id: string)
    requires GetChemicalData(id).Ok?
    ensures GetChemicalData(id).value.buyCost >= 0
    ensures GetChemicalData(id).value.sellPrice >= 0
  {
  }

  /** Products B and C cannot be bought; Raw Chemical A cannot be sold. */
  lemma TradeRestrictions()
    ensures GetChemicalData("Product B") == Ok(PRODUCT_B) && PRODUCT_B.buyCost == 0
    ensures GetChemicalData("Product C") == Ok(PRODUCT_C) && PRODUCT_C.buyCost == 0
    ensures GetChemicalData("Raw Chemical A") == Ok(RAW_CHEMICAL_A) && RAW_CHEMICAL_A.sellPrice == 0
  {
  }
}
