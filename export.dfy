/**
 * How the two halves of an export meet: the brand map built from the
 * fetched brand records is what the `brand_name` column shows.
 */
module Export {
  import opened Wrappers
  import opened Json
  import opened Catalog
  import opened Rows

  /** A product whose brand id is carried by some brand record shows the name of the last such record. */
  lemma {:induction false} BrandNameFromBrandRecords(brands: seq<Value>, i: nat, id: int, product: Value, domain: string)
    requires BrandTable(brands).Success?
    requires i < |brands| && BrandKey(brands[i]) == Success(Int(id))
    requires forall j :: i < j < |brands| ==> BrandKey(brands[j]) != Success(Int(id))
    requires product.Obj? && Lookup(product.members, "brand_id", Null) == Int(id)
    ensures Cell(product, "brand_name", BrandTable(brands).value, domain) ==
              Success(CsvText(Flatten("brand_name", BrandName(brands[i]))))
  {
    BrandTableLastWins(brands, i);
    BrandNameCell(product, id, BrandTable(brands).value, domain);
  }

  /** A product whose brand id no brand record carries shows an empty brand name. */
  lemma {:induction false} UnknownBrandIsEmpty(brands: seq<Value>, id: int, product: Value, domain: string)
    requires BrandTable(brands).Success?
    requires forall j :: 0 <= j < |brands| ==> BrandKey(brands[j]) != Success(Int(id))
    requires product.Obj? && Lookup(product.members, "brand_id", Null) == Int(id)
    ensures Cell(product, "brand_name", BrandTable(brands).value, domain) == Success("")
  {
    BrandTableKeys(brands, Int(id));
    BrandNameCell(product, id, BrandTable(brands).value, domain);
  }
}
