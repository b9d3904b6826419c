/** The scan endpoint (app/api/scan/route.ts): checks the required fields,
    fills missing catalogue fields from the imported product tables, and hands
    the row to the store's `scan_kiz` procedure. */
module ScanRoute {
  import opened Common
  import opened Text

  /** The request body. `None` stands for a field that is `null` or absent;
      note that `Some("")` is falsy in JavaScript but not nullish, so `??`
      keeps it while `!` rejects it. */
  datatype ScanBody = ScanBody(
    shipment_id: Option<string>,
    box_id: Option<string>,
    barcode: Option<string>,
    wb_code: Option<string>,
    supplier_code: Option<string>,
    size: Option<string>,
    with_kiz: bool,
    kiz_code: Option<string>)

  /** JavaScript truthiness of a string-or-null value. */
  predicate Falsy(v: Option<string>) {
    v.None? || v.value == ""
  }

  /** `a ?? b`. */
  function Coalesce<T>(a: Option<T>, b: Option<T>): (r: Option<T>)
    ensures a.Some? ==> r == a
    ensures a.None? ==> r == b
  {
    if a.Some? then a else b
  }

  /** A row of `wb_sizes`: the size name and the card it belongs to. */
  datatype SizeRow = SizeRow(techsize: Option<string>, nmid: Option<int>)

  /** The three imported catalogue tables, each keyed by its lookup column
      (a key that is absent is a lookup that found no row):
      `wb_size_skus` (sku to chrtid), `wb_sizes` (chrtid to size row),
      `wb_cards` (nmid to vendorcode). */
  datatype Catalog = Catalog(
    skus: map<string, Option<int>>,
    sizes: map<int, SizeRow>,
    cards: map<int, Option<string>>)

  /** One query the endpoint sends to the catalogue. */
  datatype Lookup = SkuLookup(sku: string) | SizeLookup(chrtid: int) | CardLookup(nmid: int)

  /** The arguments of the `scan_kiz` call. */
  datatype ScanArgs = ScanArgs(
    p_shipment_id: string,
    p_box_id: Option<string>,
    p_barcode: string,
    p_wb_code: Option<string>,
    p_supplier_code: Option<string>,
    p_size: Option<string>,
    p_with_kiz: bool,
    p_kiz_code: Option<string>)

  /** What the store answers: the id of the inserted row, or an error message. */
  datatype StoreReply = Inserted(id: string) | StoreError(message: string)

  /** The HTTP response: an error with its status, or `{ok: true, id}`. */
  datatype ScanResponse = ScanError(status: int, error: string) | ScanOk(id: string)

  const RequiredMessage := "shipment_id и barcode обязательны"

  /** The size row the chain `sku -> chrtid -> (techsize, nmid)` reaches for a barcode. */
  function SizeRowOf(cat: Catalog, barcode: string): Option<SizeRow> {
    if barcode in cat.skus && cat.skus[barcode].Some? && cat.skus[barcode].value in cat.sizes
    then Some(cat.sizes[cat.skus[barcode].value])
    else None
  }

  /** The vendor code of a card, `null` when the card is missing. */
  function VendorOf(cat: Catalog, nmid: int): Option<string> {
    if nmid in cat.cards then cat.cards[nmid] else None
  }

  /** The values the catalogue chain settles on, stated declaratively: it
      runs only when one field is falsy; a size row reached through the sku
      supplies the size and the card number; the card supplies the vendor code
      only when the caller's supplier code is falsy; `??` keeps every non-null
      value the caller sent. */
  function Filled(cat: Catalog, barcode: string, wb0: Option<string>, supplier0: Option<string>, size0: Option<string>)
    : (Option<string>, Option<string>, Option<string>)
  {
    var row := SizeRowOf(cat, barcode);
    if !(Falsy(wb0) || Falsy(supplier0) || Falsy(size0)) || row.None? then (wb0, supplier0, size0)
    else
      var nmid := row.value.nmid;
      ( Coalesce(wb0, if nmid.Some? then Some(IntString(nmid.value)) else None),
        if nmid.Some? && Falsy(supplier0) then Coalesce(supplier0, VendorOf(cat, nmid.value)) else supplier0,
        Coalesce(size0, row.value.techsize) )
  }

  /** A `wb_code` the chain fills in is the decimal numeral of the card number
      of the size row the barcode leads to, and reads back as that number. */
  lemma FilledWbCodeNamesCard(cat: Catalog, barcode: string, wb0: Option<string>, supplier0: Option<string>, size0: Option<string>)
    requires Filled(cat, barcode, wb0, supplier0, size0).0 != wb0
    ensures wb0.None?
    ensures SizeRowOf(cat, barcode).Some? && SizeRowOf(cat, barcode).value.nmid.Some?
    ensures var nmid := SizeRowOf(cat, barcode).value.nmid.value;
            Filled(cat, barcode, wb0, supplier0, size0).0 == Some(IntString(nmid))
            && ParseInteger(Filled(cat, barcode, wb0, supplier0, size0).0.value) == Some(nmid)
  {
    IntStringRoundTrip(SizeRowOf(cat, barcode).value.nmid.value);
  }

  /** The body is rejected before any lookup when shipment or barcode is falsy. */
  predicate MissingRequired(body: ScanBody) {
    Falsy(body.shipment_id) || Falsy(body.barcode)
  }

  /** The catalogue fill-in: `size`, `wb_code` and `supplier_code` are the
      local variables the source reassigns one after another. */
  method Autofill(cat: Catalog, barcode: string, wb0: Option<string>, supplier0: Option<string>, size0: Option<string>)
    returns (wb: Option<string>, supplier: Option<string>, size: Option<string>, lookups: seq<Lookup>)
    // nothing is looked up when all three fields are truthy
    ensures !(Falsy(wb0) || Falsy(supplier0) || Falsy(size0)) ==>
              lookups == [] && wb == wb0 && supplier == supplier0 && size == size0
    // a supplied (non-null) value is never replaced
    ensures wb0.Some? ==> wb == wb0
    ensures supplier0.Some? ==> supplier == supplier0
    ensures size0.Some? ==> size == size0
    // no sku row, a null chrtid or no size row: all three stay as supplied
    ensures SizeRowOf(cat, barcode).None? ==> wb == wb0 && supplier == supplier0 && size == size0
    // what the chain fills in when it runs
    ensures (wb, supplier, size) == Filled(cat, barcode, wb0, supplier0, size0)
    // the first query is always the sku, and a card is only fetched for a falsy supplier code
    ensures lookups != [] ==> lookups[0] == SkuLookup(barcode)
    ensures |lookups| <= 3
    ensures forall i :: 0 <= i < |lookups| && lookups[i].CardLookup? ==> Falsy(supplier0)
  {
    wb, supplier, size, lookups := wb0, supplier0, size0, [];
    if Falsy(wb) || Falsy(supplier) || Falsy(size) {
      lookups := lookups + [SkuLookup(barcode)];
      var skuRow: Option<Option<int>> := if barcode in cat.skus then Some(cat.skus[barcode]) else None;
      if skuRow.Some? && skuRow.value.Some? {
        var chrtid := skuRow.value.value;
        lookups := lookups + [SizeLookup(chrtid)];
        var sizeRow := if chrtid in cat.sizes then Some(cat.sizes[chrtid]) else None;
        if sizeRow.Some? {
          size := Coalesce(size, sizeRow.value.techsize);
          wb := Coalesce(wb, if sizeRow.value.nmid.Some? then Some(IntString(sizeRow.value.nmid.value)) else None);
          if sizeRow.value.nmid.Some? && Falsy(supplier) {
            var nmid := sizeRow.value.nmid.value;
            lookups := lookups + [CardLookup(nmid)];
            var cardRow := if nmid in cat.cards then Some(cat.cards[nmid]) else None;
            supplier := Coalesce(supplier, if cardRow.Some? then cardRow.value else None);
          }
        }
      }
    }
  }

  /** The `scan_kiz` arguments for the (filled-in) fields. */
  function RpcArgs(body: ScanBody, wb: Option<string>, supplier: Option<string>, size: Option<string>): (a: ScanArgs)
    requires !MissingRequired(body)
    ensures a.p_kiz_code.Some? ==> body.with_kiz && a.p_kiz_code == body.kiz_code
    ensures body.with_kiz ==> a.p_kiz_code == body.kiz_code
    ensures a.p_shipment_id == body.shipment_id.value && a.p_barcode == body.barcode.value
    ensures a.p_box_id == body.box_id && a.p_with_kiz == body.with_kiz
  {
    ScanArgs(body.shipment_id.value, body.box_id, body.barcode.value, wb, supplier, size, body.with_kiz,
             if body.with_kiz then body.kiz_code else None)
  }

  /** `POST /api/scan`. `store` is the database's answer to a `scan_kiz` call.
      Returns the response, the call made (if any) and the catalogue queries issued. */
  method Post(body: ScanBody, cat: Catalog, store: ScanArgs -> StoreReply)
    returns (response: ScanResponse, call: Option<ScanArgs>, lookups: seq<Lookup>)
    ensures MissingRequired(body) ==>
              response == ScanError(400, RequiredMessage) && call == None && lookups == []
    ensures !MissingRequired(body) ==> call.Some? && call.value == RpcArgs(body,
              Filled(cat, body.barcode.value, body.wb_code, body.supplier_code, body.size).0,
              Filled(cat, body.barcode.value, body.wb_code, body.supplier_code, body.size).1,
              Filled(cat, body.barcode.value, body.wb_code, body.supplier_code, body.size).2)
    ensures call.Some? ==> !body.with_kiz ==> call.value.p_kiz_code == None
    ensures call.Some? ==> body.with_kiz ==> call.value.p_kiz_code == body.kiz_code
    ensures call.Some? ==> response == match store(call.value)
                                       case Inserted(id) => ScanOk(id)
                                       case StoreError(m) => ScanError(400, m)
  {
    if MissingRequired(body) {
      return ScanError(400, RequiredMessage), None, [];
    }
    var wb, supplier, size;
    wb, supplier, size, lookups := Autofill(cat, body.barcode.value, body.wb_code, body.supplier_code, body.size);
    var args := RpcArgs(body, wb, supplier, size);
    call := Some(args);
    match store(args)
    case StoreError(m) =>
      response := ScanError(400, m);
    case Inserted(id) =>
      response := ScanOk(id);
  }
}
