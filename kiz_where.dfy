/** Where was a marking code last scanned (app/api/kiz/where/route.ts): the
    latest journal row for the code, the shipment it belongs to, and the box. */
module KizWhere {
  import opened Common
  import opened Text
  import opened Shipments

  /** A row of the `shipment_kiz` journal; `created_at` is the insertion instant. */
  datatype JournalRow = JournalRow(kiz_code: string, shipment_id: string, box_id: Option<string>, created_at: int)

  /** A row of `boxes`. */
  datatype BoxRow = BoxRow(box_id: string, ordinal: int)

  /** The answer to a single-row lookup. */
  datatype Fetch<T> = Found(value: T) | Missing | FetchError(message: string)

  /** The tables the endpoint reads, each as the database would answer. */
  datatype Tables = Tables(
    journal: Result<seq<JournalRow>>,
    shipments: string -> Fetch<ShipmentRecord>,
    boxes: string -> Fetch<BoxRow>)

  datatype WhereResponse =
    | WhereError(status: int, error: string)
    | Located(kiz_code: string, shipment_id: string, shipment_label: string,
              box_id: Option<string>, box_label: string, last_seen_at: int)

  /** The response and the tables read, in order. */
  datatype WhereExchange = WhereExchange(tablesRead: seq<string>, response: WhereResponse)

  const NoBoxLabel := "без короба"
  const ShipmentNotFound := "shipment not found"

  /** The journal row the query `eq(kiz_code) order(created_at desc) limit(1)`
      returns: one of the rows for `code` with the latest instant. */
  function Latest(rows: seq<JournalRow>, code: string): (r: Option<JournalRow>)
    ensures r.None? <==> forall i :: 0 <= i < |rows| ==> rows[i].kiz_code != code
    ensures r.Some? ==> r.value in rows && r.value.kiz_code == code
    ensures r.Some? ==> forall i :: 0 <= i < |rows| && rows[i].kiz_code == code ==>
                          rows[i].created_at <= r.value.created_at
  {
    if rows == [] then None
    else
      var rest := Latest(rows[1..], code);
      if rows[0].kiz_code != code then rest
      else if rest.None? || rest.value.created_at < rows[0].created_at then Some(rows[0])
      else rest
  }

  /** The label of the box a row was scanned into: "Короб N" when the row names
      a box and the box is found, "без короба" otherwise (a failed box lookup is
      not an error). */
  function BoxLabel(boxId: Option<string>, boxes: string -> Fetch<BoxRow>): (s: string)
    ensures (boxId.Some? && boxId.value != "" && boxes(boxId.value).Found?) ==>
              s == "Короб " + IntString(boxes(boxId.value).value.ordinal)
    ensures !(boxId.Some? && boxId.value != "" && boxes(boxId.value).Found?) ==> s == NoBoxLabel
  {
    if boxId.Some? && boxId.value != "" then
      match boxes(boxId.value)
      case Found(b) => "Короб " + IntString(b.ordinal)
      case _ => NoBoxLabel
    else NoBoxLabel
  }

  /** `GET /api/kiz/where?kiz_code=..`. */
  function Where(kiz: Option<string>, t: Tables): (x: WhereExchange)
    ensures (kiz.None? || kiz.value == "") ==>
              x == WhereExchange([], WhereError(400, "kiz_code required"))
    ensures kiz.Some? && kiz.value != "" && t.journal.Fail? ==>
              x.response == WhereError(400, t.journal.message)
    ensures kiz.Some? && kiz.value != "" && t.journal.Ok? && Latest(t.journal.value, kiz.value).None? ==>
              x.response == WhereError(404, "not_found")
    ensures x.response.Located? ==>
              && kiz.Some? && x.response.kiz_code == kiz.value
              && t.journal.Ok?
              && var row := Latest(t.journal.value, kiz.value);
              && row.Some?
              && t.shipments(row.value.shipment_id).Found?
              && x.response.shipment_id == t.shipments(row.value.shipment_id).value.shipment_id
              && x.response.box_id == row.value.box_id
              && x.response.last_seen_at == row.value.created_at
              && x.response.box_label == BoxLabel(row.value.box_id, t.boxes)
              && var ship := t.shipments(row.value.shipment_id).value;
              && x.response.shipment_label == ShipmentLabel(ship.warehouse, ship.shipment_date, ship.number_in_day)
    ensures kiz.Some? && kiz.value != "" && t.journal.Ok? && Latest(t.journal.value, kiz.value).Some? ==>
              var row := Latest(t.journal.value, kiz.value).value;
              (x.response.Located? <==> t.shipments(row.shipment_id).Found?)
    ensures kiz.Some? && kiz.value != "" && t.journal.Ok? && Latest(t.journal.value, kiz.value).Some? ==>
              var found := t.shipments(Latest(t.journal.value, kiz.value).value.shipment_id);
              !found.Found? ==>
                x == WhereExchange(["shipment_kiz", "shipments"],
                                   WhereError(400, if found.FetchError? && found.message != "" then found.message
                                                   else ShipmentNotFound))
  {
    if kiz.None? || kiz.value == "" then WhereExchange([], WhereError(400, "kiz_code required"))
    else
      match t.journal
      case Fail(m) => WhereExchange(["shipment_kiz"], WhereError(400, m))
      case Ok(rows) =>
        var latest := Latest(rows, kiz.value);
        if latest.None? then WhereExchange(["shipment_kiz"], WhereError(404, "not_found"))
        else
          var row := latest.value;
          match t.shipments(row.shipment_id)
          case FetchError(m) =>
            WhereExchange(["shipment_kiz", "shipments"], WhereError(400, if m != "" then m else ShipmentNotFound))
          case Missing =>
            WhereExchange(["shipment_kiz", "shipments"], WhereError(400, ShipmentNotFound))
          case Found(ship) =>
            var tablesRead := if row.box_id.Some? && row.box_id.value != ""
                         then ["shipment_kiz", "shipments", "boxes"] else ["shipment_kiz", "shipments"];
            WhereExchange(tablesRead, Located(kiz.value, ship.shipment_id,
                                         ShipmentLabel(ship.warehouse, ship.shipment_date, ship.number_in_day),
                                         row.box_id, BoxLabel(row.box_id, t.boxes), row.created_at))
  }

  /** The location reported for a code does not depend on rows of other codes:
      adding journal rows for a different code changes nothing. */
  lemma {:induction false} LatestIgnoresOtherCodes(rows: seq<JournalRow>, other: seq<JournalRow>, code: string)
    requires forall i :: 0 <= i < |other| ==> other[i].kiz_code != code
    ensures Latest(other + rows, code) == Latest(rows, code)
    decreases |other|
  {
    if other != [] {
      assert (other + rows)[1..] == other[1..] + rows;
      LatestIgnoresOtherCodes(rows, other[1..], code);
    } else {
      assert other + rows == rows;
    }
  }

  /** A newer scan of the same code moves the reported location to it. */
  lemma NewerScanWins(rows: seq<JournalRow>, newer: JournalRow)
    requires forall i :: 0 <= i < |rows| && rows[i].kiz_code == newer.kiz_code ==> rows[i].created_at < newer.created_at
    ensures Latest([newer] + rows, newer.kiz_code) == Some(newer)
  {
    assert ([newer] + rows)[1..] == rows;
  }
}
