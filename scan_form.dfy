/** The scanning page (app/page.tsx): the form state of one operator session,
    the `canAdd` gate, the ordered checks of `onAdd`, and the shipment and box
    pickers. Every server reply is a parameter of the method that awaits it. */
module ScanForm {
  import opened Common
  import opened Text
  import opened Shipments
  import opened ScanRoute

  /** An entry of the box picker. */
  datatype BoxOption = BoxOption(box_id: string, ordinal: int, labelText: string)

  /** A row of the scan listing (lib/types.ts). */
  datatype ListingRow = ListingRow(
    id: string, shipment_id: string, box_id: Option<string>, barcode: string,
    wb_code: Option<string>, supplier_code: Option<string>, size: Option<string>,
    kiz_code: Option<string>, created_at: string)

  /** A row of the per-box summary (lib/types.ts). */
  datatype BoxSummaryRow = BoxSummaryRow(
    box_id: string, barcode: string, wb_code: Option<string>, supplier_code: Option<string>,
    size: Option<string>, qty: int)

  datatype ToastKind = Success | Failure
  datatype Toast = Toast(kind: ToastKind, text: string)

  /** What `/api/boxes/create` answers: the new box, or an error (possibly empty). */
  datatype BoxReply = BoxCreated(box: BoxOption) | BoxFailed(error: string)

  const Warehouses: seq<string> := ["Черновик", "Коледино", "Тула", "Электросталь", "Казань", "Сарапул"]
  const DefaultWarehouse := "Казань"

  const SelectMessage := "Выберите поставку и короб"
  const BarcodeMessage := "Заполните ШК"
  const KizMessage := "Заполните КИЗ"
  const ScanFailedMessage := "Ошибка сканирования"
  const NoShipmentMessage := "Сначала выберите поставку"
  const BoxFailedMessage := "Ошибка создания короба"
  const ShipmentFailedMessage := "Ошибка создания поставки"

  /** `canAdd`: a shipment and a box are selected, the barcode is not blank,
      and in marking-code mode the marking code is not blank either. */
  function CanAdd(shipmentId: string, boxId: string, barcode: string, withKiz: bool, kiz: string): (r: bool)
    ensures r <==> shipmentId != "" && boxId != "" && !IsBlank(barcode) && (withKiz ==> !IsBlank(kiz))
  {
    TrimEmptyIffBlank(barcode);
    TrimEmptyIffBlank(kiz);
    if shipmentId == "" || boxId == "" then false
    else if Trim(barcode) == "" then false
    else if withKiz && Trim(kiz) == "" then false
    else true
  }

  /** The local checks of `onAdd`, in their order: the message of the first
      one that fails, or `None` when the request may be sent. */
  function AddCheck(shipmentId: string, boxId: string, barcode: string, withKiz: bool, kiz: string): (r: Option<string>)
    ensures r.None? <==> CanAdd(shipmentId, boxId, barcode, withKiz, kiz)
    ensures (shipmentId == "" || boxId == "") ==> r == Some(SelectMessage)
    ensures shipmentId != "" && boxId != "" && IsBlank(barcode) ==> r == Some(BarcodeMessage)
    ensures shipmentId != "" && boxId != "" && !IsBlank(barcode) && withKiz && IsBlank(kiz) ==>
              r == Some(KizMessage)
  {
    TrimEmptyIffBlank(barcode);
    TrimEmptyIffBlank(kiz);
    if shipmentId == "" || boxId == "" then Some(SelectMessage)
    else if Trim(barcode) == "" then Some(BarcodeMessage)
    else if withKiz && Trim(kiz) == "" then Some(KizMessage)
    else None
  }

  /** `s || null`. */
  function OrNull(s: string): Option<string> {
    if s == "" then None else Some(s)
  }

  /** The body `onAdd` posts to the scan endpoint. */
  function ScanRequest(shipmentId: string, boxId: string, barcode: string, withKiz: bool, kiz: string,
                       wbCode: string, supplierCode: string, size: string): ScanBody
  {
    ScanBody(Some(shipmentId), Some(boxId), Some(barcode), OrNull(wbCode), OrNull(supplierCode), OrNull(size),
             withKiz, OrNull(kiz))
  }

  /** Whatever the page sends once `canAdd` holds passes the endpoint's
      required-field check, and in marking-code mode the store receives the
      marking code exactly as typed. */
  lemma PageRequestPassesRouteCheck(shipmentId: string, boxId: string, barcode: string, withKiz: bool, kiz: string,
                                    wbCode: string, supplierCode: string, size: string)
    requires CanAdd(shipmentId, boxId, barcode, withKiz, kiz)
    ensures var body := ScanRequest(shipmentId, boxId, barcode, withKiz, kiz, wbCode, supplierCode, size);
            && !MissingRequired(body)
            && (withKiz ==> body.kiz_code == Some(kiz))
            && body.barcode == Some(barcode)
  {
    assert IsBlank("");
  }

  // ---------------------------------------------------------------------
  // The box list: `[...boxes, newBox].sort((a, b) => a.ordinal - b.ordinal)`.

  predicate SortedByOrdinal(s: seq<BoxOption>) {
    forall i, j :: 0 <= i < j < |s| ==> s[i].ordinal <= s[j].ordinal
  }

  /** Insert `b` after every entry whose ordinal is not greater (so equal
      ordinals keep their order). */
  function InsertByOrdinal(b: BoxOption, s: seq<BoxOption>): (r: seq<BoxOption>)
    ensures |r| == |s| + 1
    ensures multiset(r) == multiset(s) + multiset{b}
    ensures forall x :: x in r ==> x == b || x in s
  {
    if s == [] then [b]
    else if b.ordinal < s[0].ordinal then [b] + s
    else
      assert s == [s[0]] + s[1..];
      [s[0]] + InsertByOrdinal(b, s[1..])
  }

  /** Inserting into an ordered list keeps it ordered. */
  lemma {:induction false} InsertKeepsSorted(b: BoxOption, s: seq<BoxOption>)
    requires SortedByOrdinal(s)
    ensures SortedByOrdinal(InsertByOrdinal(b, s))
  {
    if s != [] && b.ordinal >= s[0].ordinal {
      var rest := InsertByOrdinal(b, s[1..]);
      InsertKeepsSorted(b, s[1..]);
      forall j | 0 <= j < |rest| ensures s[0].ordinal <= rest[j].ordinal {
        assert rest[j] in rest;
      }
      SortedCons(s[0], rest);
    }
  }

  /** An entry no greater than any entry of an ordered list can go in front of it. */
  lemma SortedCons(x: BoxOption, s: seq<BoxOption>)
    requires SortedByOrdinal(s)
    requires forall j :: 0 <= j < |s| ==> x.ordinal <= s[j].ordinal
    ensures SortedByOrdinal([x] + s)
  {
    var r := [x] + s;
    forall i, j | 0 <= i < j < |r| ensures r[i].ordinal <= r[j].ordinal {
      assert r[j] == s[j - 1];
      if i > 0 {
        assert r[i] == s[i - 1];
      }
    }
  }

  /** A stable sort by ordinal (the comparator of the source; JavaScript's
      `Array.prototype.sort` is stable). */
  function SortByOrdinal(s: seq<BoxOption>): (r: seq<BoxOption>)
    ensures |r| == |s|
    ensures multiset(r) == multiset(s)
    ensures SortedByOrdinal(r)
  {
    if s == [] then []
    else
      assert s == s[..|s| - 1] + [s[|s| - 1]];
      var init := SortByOrdinal(s[..|s| - 1]);
      InsertKeepsSorted(s[|s| - 1], init);
      InsertByOrdinal(s[|s| - 1], init)
  }

  /** An entry no smaller than every entry goes to the end. */
  lemma {:induction false} InsertAfterAll(b: BoxOption, s: seq<BoxOption>)
    requires forall i :: 0 <= i < |s| ==> s[i].ordinal <= b.ordinal
    ensures InsertByOrdinal(b, s) == s + [b]
  {
    if s != [] {
      InsertAfterAll(b, s[1..]);
      assert [s[0]] + (s[1..] + [b]) == s + [b];
    }
  }

  /** Sorting an already sorted list changes nothing. */
  lemma {:induction false} SortSortedIsIdentity(s: seq<BoxOption>)
    requires SortedByOrdinal(s)
    ensures SortByOrdinal(s) == s
  {
    if s != [] {
      var init := s[..|s| - 1];
      SortSortedIsIdentity(init);
      InsertAfterAll(s[|s| - 1], init);
      assert init + [s[|s| - 1]] == s;
    }
  }

  /** With the box list already in order, adding a box puts it after every
      box of a lower or equal ordinal and keeps the rest as it was. */
  lemma AddBoxInsertsInPlace(boxes: seq<BoxOption>, b: BoxOption)
    requires SortedByOrdinal(boxes)
    ensures BoxesAfterCreate(boxes, b) == InsertByOrdinal(b, boxes)
  {
    assert (boxes + [b])[..|boxes|] == boxes;
    SortSortedIsIdentity(boxes);
  }

  predicate HasBox(boxes: seq<BoxOption>, id: string) {
    exists i :: 0 <= i < |boxes| && boxes[i].box_id == id
  }

  /** The box list after `createBox` adds `b`: the longer list sorted. It
      lists the new box and every box listed before, in ordinal order. */
  function BoxesAfterCreate(boxes: seq<BoxOption>, b: BoxOption): (r: seq<BoxOption>)
    ensures SortedByOrdinal(r)
    ensures multiset(r) == multiset(boxes) + multiset{b}
    ensures HasBox(r, b.box_id)
    ensures forall id :: HasBox(boxes, id) ==> HasBox(r, id)
  {
    var r := SortByOrdinal(boxes + [b]);
    assert multiset(boxes + [b]) == multiset(boxes) + multiset{b};
    forall id | HasBox(boxes, id) ensures HasBox(r, id) {
      ListedBoxStaysListed(boxes, r, id);
    }
    ListedBoxStaysListed([b], r, b.box_id);
    r
  }

  /** A box listed in `s` is listed in any list holding at least the entries of `s`. */
  lemma ListedBoxStaysListed(s: seq<BoxOption>, r: seq<BoxOption>, id: string)
    requires multiset(s) <= multiset(r)
    requires HasBox(s, id)
    ensures HasBox(r, id)
  {
    var k :| 0 <= k < |s| && s[k].box_id == id;
    assert s[k] in multiset(s);
    assert s[k] in multiset(r);
    var j :| 0 <= j < |r| && r[j] == s[k];
  }

  // ---------------------------------------------------------------------
  // The page's state.

  class ScanSession {
    // block 1: filters and pickers
    var warehouse: string
    var shipDate: string
    var shipments: seq<ShipmentOption>
    var shipmentId: string
    var boxes: seq<BoxOption>
    var boxId: string
    // block 2: the scan form
    var barcode: string
    var withKiz: bool
    var kiz: string
    var wbCode: string
    var supplierCode: string
    var size: string
    // block 3: the tables
    var listing: seq<ListingRow>
    var summary: seq<BoxSummaryRow>
    // notification
    var toast: Option<Toast>

    /** The box list is in ordinal order, the selected box is one of its
        entries, and boxes only exist under a selected shipment. */
    ghost predicate Valid()
      reads this
    {
      && SortedByOrdinal(boxes)
      && (boxId == "" || HasBox(boxes, boxId))
      && (boxes != [] ==> shipmentId != "")
    }

    /** A fresh page: Kazan, today's date, nothing selected or typed. */
    constructor (today: string)
      ensures Valid()
      ensures warehouse == DefaultWarehouse && shipDate == today
      ensures shipments == [] && shipmentId == "" && boxes == [] && boxId == ""
      ensures barcode == "" && !withKiz && kiz == "" && wbCode == "" && supplierCode == "" && size == ""
      ensures listing == [] && summary == [] && toast == None
    {
      warehouse, shipDate := DefaultWarehouse, today;
      shipments, shipmentId, boxes, boxId := [], "", [], "";
      barcode, withKiz, kiz, wbCode, supplierCode, size := "", false, "", "", "", "";
      listing, summary, toast := [], [], None;
    }

    /** `canAdd` over the current fields. */
    predicate CanAddNow()
      reads this
    {
      CanAdd(shipmentId, boxId, barcode, withKiz, kiz)
    }

    /** `loadShipments`: clear the pickers and tables, then show the
        shipments the server lists (kept empty when it answers with an error). */
    method LoadShipments(reply: ListResponse)
      requires Valid()
      modifies this
      ensures Valid()
      ensures shipments == (if reply.Listed? then reply.options else [])
      ensures shipmentId == "" && boxes == [] && boxId == "" && listing == [] && summary == []
      ensures unchanged(this`warehouse, this`shipDate, this`toast)
      ensures unchanged(this`barcode, this`withKiz, this`kiz, this`wbCode, this`supplierCode, this`size)
    {
      shipments, shipmentId := [], "";
      ClearSelection();
      if reply.Listed? {
        shipments := reply.options;
      }
    }

    /** The effect on `shipmentId`: empty the box list, the box selection and
        both tables. */
    method ClearSelection()
      modifies this
      ensures boxes == [] && boxId == "" && listing == [] && summary == []
      ensures unchanged(this`warehouse, this`shipDate, this`shipments, this`shipmentId, this`toast)
      ensures unchanged(this`barcode, this`withKiz, this`kiz, this`wbCode, this`supplierCode, this`size)
    {
      boxes, boxId, listing, summary := [], "", [], [];
    }

    /** Picking another warehouse reloads the shipments. */
    method ChangeWarehouse(w: string, reply: ListResponse)
      requires Valid()
      requires w in Warehouses
      modifies this
      ensures Valid()
      ensures warehouse == w && unchanged(this`shipDate)
      ensures shipments == (if reply.Listed? then reply.options else [])
      ensures shipmentId == "" && boxes == [] && boxId == "" && listing == [] && summary == []
      ensures unchanged(this`barcode, this`withKiz, this`kiz, this`toast)
      ensures unchanged(this`wbCode, this`supplierCode, this`size)
    {
      warehouse := w;
      LoadShipments(reply);
    }

    /** Picking another shipment date reloads the shipments. */
    method ChangeDate(d: string, reply: ListResponse)
      requires Valid()
      modifies this
      ensures Valid()
      ensures shipDate == d && unchanged(this`warehouse)
      ensures shipments == (if reply.Listed? then reply.options else [])
      ensures shipmentId == "" && boxes == [] && boxId == "" && listing == [] && summary == []
      ensures unchanged(this`barcode, this`withKiz, this`kiz, this`toast)
      ensures unchanged(this`wbCode, this`supplierCode, this`size)
    {
      shipDate := d;
      LoadShipments(reply);
    }

    /** Selecting a shipment; the effect on `shipmentId` clears the box
        selection, the boxes and both tables whenever the id changes. */
    method SelectShipment(id: string)
      requires Valid()
      modifies this
      ensures Valid()
      ensures shipmentId == id
      ensures id != old(shipmentId) ==> boxes == [] && boxId == "" && listing == [] && summary == []
      ensures id == old(shipmentId) ==>
                boxes == old(boxes) && boxId == old(boxId) && listing == old(listing) && summary == old(summary)
      ensures unchanged(this`warehouse, this`shipDate, this`shipments)
      ensures unchanged(this`barcode, this`withKiz, this`kiz, this`toast)
      ensures unchanged(this`wbCode, this`supplierCode, this`size)
    {
      if id != shipmentId {
        shipmentId := id;
        ClearSelection();
      }
    }

    /** Selecting a box from the picker (or the empty placeholder). */
    method SelectBox(id: string)
      requires Valid()
      requires id == "" || HasBox(boxes, id)
      modifies this
      ensures Valid()
      ensures boxId == id
      ensures unchanged(this`shipmentId, this`boxes, this`shipments)
      ensures unchanged(this`listing, this`summary, this`toast)
      ensures unchanged(this`barcode, this`withKiz, this`kiz)
      ensures unchanged(this`wbCode, this`supplierCode, this`size)
    {
      boxId := id;
    }

    /** `createShipment`: on success reload the list, select the new shipment
        and announce its human number. */
    method CreateShipment(reply: CreateResponse, listReply: ListResponse)
      requires Valid()
      modifies this
      ensures Valid()
      ensures reply.CreateError? ==>
                && toast == Some(Toast(Failure, if reply.error != "" then reply.error else ShipmentFailedMessage))
                && shipments == old(shipments) && shipmentId == old(shipmentId)
                && boxes == old(boxes) && boxId == old(boxId)
                && listing == old(listing) && summary == old(summary)
      ensures reply.Created? ==>
                && toast == Some(Toast(Success, "Создана поставка " + reply.human_number))
                && shipments == (if listReply.Listed? then listReply.options else [])
                && shipmentId == reply.shipment_id
                && boxes == [] && boxId == "" && listing == [] && summary == []
      ensures unchanged(this`warehouse, this`shipDate)
      ensures unchanged(this`barcode, this`withKiz, this`kiz)
      ensures unchanged(this`wbCode, this`supplierCode, this`size)
    {
      match reply
      case CreateError(_, e) =>
        toast := Some(Toast(Failure, if e != "" then e else ShipmentFailedMessage));
      case Created(id, _, humanNumber) =>
        LoadShipments(listReply);
        SelectShipment(id);
        toast := Some(Toast(Success, "Создана поставка " + humanNumber));
    }

    /** `createBox`: without a shipment nothing is requested; on success the
        new box joins the list in ordinal order and becomes the selection.
        Returns whether a request was sent. */
    method CreateBox(reply: BoxReply) returns (sent: bool)
      requires Valid()
      modifies this
      ensures Valid()
      ensures sent <==> old(shipmentId) != ""
      ensures !sent ==> toast == Some(Toast(Failure, NoShipmentMessage))
                        && boxes == old(boxes) && boxId == old(boxId)
      ensures sent && reply.BoxFailed? ==>
                toast == Some(Toast(Failure, if reply.error != "" then reply.error else BoxFailedMessage))
                && boxes == old(boxes) && boxId == old(boxId)
      ensures sent && reply.BoxCreated? ==>
                && boxes == BoxesAfterCreate(old(boxes), reply.box)
                && boxId == reply.box.box_id
                && toast == old(toast)
      ensures unchanged(this`shipmentId, this`shipments)
      ensures unchanged(this`listing, this`summary)
      ensures unchanged(this`warehouse, this`shipDate)
      ensures unchanged(this`barcode, this`withKiz, this`kiz)
      ensures unchanged(this`wbCode, this`supplierCode, this`size)
    {
      if shipmentId == "" {
        toast := Some(Toast(Failure, NoShipmentMessage));
        sent := false;
      } else if reply.BoxFailed? {
        sent := true;
        toast := Some(Toast(Failure, if reply.error != "" then reply.error else BoxFailedMessage));
      } else {
        sent := true;
        AddBox(reply.box);
      }
    }

    /** The success path of `createBox`: the box joins the list in ordinal
        order and becomes the selection. */
    method AddBox(b: BoxOption)
      requires Valid() && shipmentId != ""
      modifies this
      ensures Valid()
      ensures boxes == BoxesAfterCreate(old(boxes), b) && boxId == b.box_id
      ensures unchanged(this`shipmentId, this`shipments, this`toast)
      ensures unchanged(this`listing, this`summary)
      ensures unchanged(this`warehouse, this`shipDate)
      ensures unchanged(this`barcode, this`withKiz, this`kiz)
      ensures unchanged(this`wbCode, this`supplierCode, this`size)
    {
      boxes := BoxesAfterCreate(boxes, b);
      boxId := b.box_id;
    }

    /** `refreshDataViews`: with a shipment selected, show the listing the
        server returned and, with a box selected, the box summary. */
    method RefreshDataViews(listingReply: Option<seq<ListingRow>>, summaryReply: Option<seq<BoxSummaryRow>>)
      requires Valid()
      modifies this
      ensures Valid()
      ensures shipmentId != "" && listingReply.Some? ==> listing == listingReply.value
      ensures !(shipmentId != "" && listingReply.Some?) ==> listing == old(listing)
      ensures shipmentId != "" && boxId != "" && summaryReply.Some? ==> summary == summaryReply.value
      ensures !(shipmentId != "" && boxId != "" && summaryReply.Some?) ==> summary == old(summary)
      ensures unchanged(this`shipmentId, this`boxId, this`boxes)
      ensures unchanged(this`shipments, this`toast)
      ensures unchanged(this`barcode, this`withKiz, this`kiz)
      ensures unchanged(this`wbCode, this`supplierCode, this`size)
    {
      if shipmentId == "" {
        return;
      }
      if listingReply.Some? {
        listing := listingReply.value;
      }
      if boxId != "" && summaryReply.Some? {
        summary := summaryReply.value;
      }
    }

    /** `onAdd`: run the local checks in order; when they pass, post the scan
        and, on success, clear the barcode and marking-code fields for the next
        unit. Returns the body posted, if any. */
    method OnAdd(reply: ScanResponse) returns (sent: Option<ScanBody>)
      requires Valid()
      modifies this
      ensures Valid()
      ensures sent.Some? <==> old(CanAddNow())
      ensures !old(CanAddNow()) ==>
                toast == Some(Toast(Failure, AddCheck(old(shipmentId), old(boxId), old(barcode), old(withKiz), old(kiz)).value))
      ensures sent.Some? ==>
                sent.value == ScanRequest(old(shipmentId), old(boxId), old(barcode), old(withKiz), old(kiz),
                                          old(wbCode), old(supplierCode), old(size))
      // a rejected scan changes no field of the form; only a message is shown
      ensures (sent.None? || reply.ScanError?) ==> barcode == old(barcode) && kiz == old(kiz)
      ensures sent.Some? && reply.ScanError? ==>
                toast == Some(Toast(Failure, if reply.error != "" then reply.error else ScanFailedMessage))
      // an accepted scan empties exactly the barcode and the marking code
      ensures sent.Some? && reply.ScanOk? ==> barcode == "" && kiz == "" && toast == old(toast)
      ensures unchanged(this`withKiz, this`wbCode, this`supplierCode, this`size)
      ensures unchanged(this`shipmentId, this`boxId, this`boxes, this`shipments)
      ensures unchanged(this`listing, this`summary)
      ensures unchanged(this`warehouse, this`shipDate)
    {
      var check := AddCheck(shipmentId, boxId, barcode, withKiz, kiz);
      assert check.None? <==> CanAddNow();
      if check.Some? {
        toast := Some(Toast(Failure, check.value));
        return None;
      }
      sent := Some(ScanRequest(shipmentId, boxId, barcode, withKiz, kiz, wbCode, supplierCode, size));
      TakeScanReply(reply);
    }

    /** What `onAdd` does with the endpoint's answer: an error is shown as a
        message, a success empties the barcode and the marking code. */
    method TakeScanReply(reply: ScanResponse)
      requires Valid()
      modifies this
      ensures Valid()
      ensures reply.ScanError? ==>
                && toast == Some(Toast(Failure, if reply.error != "" then reply.error else ScanFailedMessage))
                && unchanged(this`barcode, this`kiz)
      ensures reply.ScanOk? ==> barcode == "" && kiz == "" && unchanged(this`toast)
      ensures unchanged(this`withKiz, this`wbCode, this`supplierCode, this`size)
      ensures unchanged(this`shipmentId, this`boxId, this`boxes, this`shipments)
      ensures unchanged(this`listing, this`summary)
      ensures unchanged(this`warehouse, this`shipDate)
    {
      match reply
      case ScanError(_, e) =>
        toast := Some(Toast(Failure, if e != "" then e else ScanFailedMessage));
      case ScanOk(_) =>
        barcode := "";
        kiz := "";
    }

    /** A key pressed in the barcode or marking-code field: Enter adds the
        scan, and only when `canAdd` holds. */
    method KeyDownInField(key: string, reply: ScanResponse) returns (sent: Option<ScanBody>)
      requires Valid()
      modifies this
      ensures Valid()
      ensures sent.Some? <==> key == "Enter" && old(CanAddNow())
      ensures !(key == "Enter" && old(CanAddNow())) ==>
                barcode == old(barcode) && kiz == old(kiz) && toast == old(toast)
      ensures sent.Some? ==>
                sent.value == ScanRequest(old(shipmentId), old(boxId), old(barcode), old(withKiz), old(kiz),
                                          old(wbCode), old(supplierCode), old(size))
      ensures sent.Some? && reply.ScanError? ==>
                barcode == old(barcode) && kiz == old(kiz)
                && toast == Some(Toast(Failure, if reply.error != "" then reply.error else ScanFailedMessage))
      ensures sent.Some? && reply.ScanOk? ==> barcode == "" && kiz == "" && toast == old(toast)
      ensures unchanged(this`withKiz, this`wbCode, this`supplierCode, this`size)
      ensures unchanged(this`shipmentId, this`boxId, this`boxes, this`shipments)
      ensures unchanged(this`listing, this`summary)
      ensures unchanged(this`warehouse, this`shipDate)
    {
      sent := None;
      if key == "Enter" && CanAddNow() {
        sent := OnAdd(reply);
      }
    }
  }
}
