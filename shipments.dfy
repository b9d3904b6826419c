/** Shipment numbering and the three shipment endpoints:
    app/api/shipments/route.ts (the shipments of one warehouse and day),
    app/api/shipments/create/route.ts (a new shipment and its human number),
    app/api/shipments/all/route.ts (the most recent shipments of every warehouse). */
module Shipments {
  import opened Common
  import opened Text

  /** The human-facing name of a shipment: `warehouse-date-NNN`, the day's
      counter left-padded with '0' to at least three characters. */
  function ShipmentLabel(warehouse: string, date: string, numberInDay: int): string {
    warehouse + "-" + date + "-" + Padded3(numberInDay)
  }

  /** A label is the warehouse and the date followed by a numeral of at least
      three digits that reads back as the counter; dropping its padding gives
      `String(n)` back. */
  lemma ShipmentLabelParts(warehouse: string, date: string, n: nat)
    ensures var lbl := ShipmentLabel(warehouse, date, n);
            var prefix := warehouse + "-" + date + "-";
            && lbl[..|prefix|] == prefix
            && |lbl| == |prefix| + (if n < 1000 then 3 else |NatString(n)|)
            && IsDigits(lbl[|prefix|..])
            && DigitsValue(lbl[|prefix|..]) == n
            && (n > 0 ==> StripZeros(lbl[|prefix|..]) == NatString(n))
  {
    var prefix := warehouse + "-" + date + "-";
    var lbl := ShipmentLabel(warehouse, date, n);
    assert lbl == prefix + Padded3(n);
    assert lbl[|prefix|..] == Padded3(n);
    PaddedNumberRecovers(n);
  }

  /** Two shipments of one warehouse and day with different counters never
      share a label. */
  lemma ShipmentLabelInjective(warehouse: string, date: string, m: nat, n: nat)
    requires ShipmentLabel(warehouse, date, m) == ShipmentLabel(warehouse, date, n)
    ensures m == n
  {
    ShipmentLabelParts(warehouse, date, m);
    ShipmentLabelParts(warehouse, date, n);
  }

  /** A row of the `shipments` table. */
  datatype ShipmentRecord = ShipmentRecord(
    shipment_id: string,
    warehouse: string,
    shipment_date: string,
    delivery_date: Option<string>,
    number_in_day: int,
    status: string)

  /** The query an endpoint sends: equality filters, sort keys, row limit. */
  datatype Order = Order(column: string, ascending: bool)
  datatype Query = Query(filters: seq<(string, string)>, order: seq<Order>, limit: Option<nat>)

  /** What the database answers to a query. */
  datatype QueryReply<T> = Rows(rows: seq<T>) | QueryError(message: string)

  /** An endpoint's response together with the query it issued, if any. */
  datatype Exchange<R> = Exchange(query: Option<Query>, response: R)

  // ---------------------------------------------------------------------
  // GET /api/shipments?warehouse=..&date=..

  /** One entry of the shipment picker. */
  datatype ShipmentOption = ShipmentOption(
    shipment_id: string,
    number_in_day: int,
    status: string,
    delivery_date: Option<string>,
    labelText: string)

  datatype ListResponse = ListError(status: int, error: string) | Listed(options: seq<ShipmentOption>)

  const ParamsMessage := "warehouse & date required"

  function DayQuery(warehouse: string, date: string): Query {
    Query([("warehouse", warehouse), ("shipment_date", date)], [Order("number_in_day", true)], None)
  }

  /** The picker entries for the rows of one warehouse and day, one per row
      and in the same order; the label is built from the request's warehouse
      and date. */
  function DayOptions(warehouse: string, date: string, rows: seq<ShipmentRecord>): (r: seq<ShipmentOption>)
    ensures |r| == |rows|
    ensures forall i :: 0 <= i < |rows| ==>
              && r[i].shipment_id == rows[i].shipment_id
              && r[i].number_in_day == rows[i].number_in_day
              && r[i].status == rows[i].status
              && r[i].delivery_date == rows[i].delivery_date
              && r[i].labelText == ShipmentLabel(warehouse, date, rows[i].number_in_day)
  {
    seq(|rows|, i requires 0 <= i < |rows| => OptionOf(warehouse, date, rows[i]))
  }

  /** The picker entry for one row. */
  function OptionOf(warehouse: string, date: string, s: ShipmentRecord): ShipmentOption {
    ShipmentOption(s.shipment_id, s.number_in_day, s.status, s.delivery_date,
                   ShipmentLabel(warehouse, date, s.number_in_day))
  }

  /** `GET /api/shipments`. `db` answers the query sent. */
  function ListShipments(warehouse: Option<string>, date: Option<string>,
                         db: Query -> QueryReply<ShipmentRecord>): (x: Exchange<ListResponse>)
    ensures (warehouse.None? || warehouse.value == "" || date.None? || date.value == "") <==>
              x.query.None?
    ensures x.query.None? ==> x.response == ListError(400, ParamsMessage)
    ensures x.query.Some? ==> x.query.value == DayQuery(warehouse.value, date.value)
    ensures x.query.Some? && db(x.query.value).QueryError? ==>
              x.response == ListError(400, db(x.query.value).message)
    ensures x.query.Some? && db(x.query.value).Rows? ==>
              x.response == Listed(DayOptions(warehouse.value, date.value, db(x.query.value).rows))
  {
    if warehouse.None? || warehouse.value == "" || date.None? || date.value == "" then
      Exchange(None, ListError(400, ParamsMessage))
    else
      var q := DayQuery(warehouse.value, date.value);
      match db(q)
      case QueryError(m) => Exchange(Some(q), ListError(400, m))
      case Rows(rows) => Exchange(Some(q), Listed(DayOptions(warehouse.value, date.value, rows)))
  }

  /** Distinct counters in one day's rows give distinct picker labels. */
  lemma {:induction false} DayLabelsDistinct(warehouse: string, date: string, rows: seq<ShipmentRecord>)
    requires forall i :: 0 <= i < |rows| ==> rows[i].number_in_day >= 0
    requires forall i, j :: 0 <= i < j < |rows| ==> rows[i].number_in_day != rows[j].number_in_day
    ensures var opts := DayOptions(warehouse, date, rows);
            forall i, j :: 0 <= i < j < |opts| ==> opts[i].labelText != opts[j].labelText
  {
    var opts := DayOptions(warehouse, date, rows);
    forall i, j | 0 <= i < j < |opts| ensures opts[i].labelText != opts[j].labelText {
      if opts[i].labelText == opts[j].labelText {
        ShipmentLabelInjective(warehouse, date, rows[i].number_in_day, rows[j].number_in_day);
      }
    }
  }

  // ---------------------------------------------------------------------
  // POST /api/shipments/create

  /** The validated body (the schema requires both fields to be strings). */
  datatype CreateBody = CreateBody(warehouse: string, shipment_date: string)

  /** A row returned by `create_shipment`; `number_in_day` may be null. */
  datatype CreatedRow = CreatedRow(shipment_id: string, number_in_day: Option<int>)

  /** The procedure's answer: its rows, or an error whose message may be absent. */
  datatype RpcReply = RpcRows(rows: seq<CreatedRow>) | RpcError(message: Option<string>)

  datatype CreateResponse =
    | CreateError(status: int, error: string)
    | Created(shipment_id: string, number_in_day: Option<int>, human_number: string)

  const CreateFallbackMessage := "create_shipment failed"
  /** The message of the TypeError thrown when the procedure returns no row. */
  const NoRowMessage := "Cannot read properties of undefined (reading 'number_in_day')"

  /** `POST /api/shipments/create`. `body` is the result of validating the
      request against the schema (a failure carries the validator's message);
      `rpc` is the database's answer to `create_shipment`. */
  function CreateShipment(body: Result<CreateBody>, rpc: CreateBody -> RpcReply): (r: CreateResponse)
    ensures body.Fail? ==> r == CreateError(400, body.message)
    ensures body.Ok? && rpc(body.value).RpcError? ==>
              r == CreateError(400, rpc(body.value).message.GetOr(CreateFallbackMessage))
    ensures body.Ok? && rpc(body.value).RpcRows? && rpc(body.value).rows == [] ==>
              r == CreateError(400, NoRowMessage)
    ensures r.Created? <==> body.Ok? && rpc(body.value).RpcRows? && rpc(body.value).rows != []
    ensures r.Created? ==>
              var row := rpc(body.value).rows[0];
              && r.shipment_id == row.shipment_id
              && r.number_in_day == row.number_in_day
              && r.human_number == ShipmentLabel(body.value.warehouse, body.value.shipment_date,
                                                 row.number_in_day.GetOr(1))
  {
    match body
    case Fail(m) => CreateError(400, m)
    case Ok(b) =>
      match rpc(b)
      case RpcError(m) => CreateError(400, m.GetOr(CreateFallbackMessage))
      case RpcRows(rows) =>
        if rows == [] then CreateError(400, NoRowMessage)
        else
          var row := rows[0];
          Created(row.shipment_id, row.number_in_day,
                  ShipmentLabel(b.warehouse, b.shipment_date, row.number_in_day.GetOr(1)))
  }

  /** A counter the procedure leaves null is printed as "001". */
  lemma MissingCounterIsOne(warehouse: string, date: string)
    ensures ShipmentLabel(warehouse, date, Option<int>.None.GetOr(1)) == warehouse + "-" + date + "-001"
  {
    assert NatString(1) == "1";
    assert Padded3(1) == "001";
  }

  // ---------------------------------------------------------------------
  // GET /api/shipments/all

  /** One entry of the list of all shipments. */
  datatype ShipmentEntry = ShipmentEntry(
    shipment_id: string,
    warehouse: string,
    shipment_date: string,
    delivery_date: Option<string>,
    number_in_day: int,
    status: string,
    labelText: string)

  datatype AllResponse = AllError(status: int, error: string) | AllListed(entries: seq<ShipmentEntry>)

  /** Newest first: by shipment date descending, then counter descending, at most 500 rows. */
  const AllQuery := Query([], [Order("shipment_date", false), Order("number_in_day", false)], Some(500))

  function Entry(s: ShipmentRecord): ShipmentEntry {
    ShipmentEntry(s.shipment_id, s.warehouse, s.shipment_date, s.delivery_date, s.number_in_day, s.status,
                  ShipmentLabel(s.warehouse, s.shipment_date, s.number_in_day))
  }

  /** `GET /api/shipments/all`. `db` answers the query sent. */
  function AllShipments(db: Query -> QueryReply<ShipmentRecord>): (x: Exchange<AllResponse>)
    ensures x.query == Some(AllQuery)
    ensures db(AllQuery).QueryError? ==> x.response == AllError(400, db(AllQuery).message)
    ensures db(AllQuery).Rows? ==> x.response.AllListed?
    ensures db(AllQuery).Rows? ==>
              var rows := db(AllQuery).rows;
              var entries := x.response.entries;
              && |entries| == |rows|
              && forall i :: 0 <= i < |rows| ==>
                   && entries[i].shipment_id == rows[i].shipment_id
                   && entries[i].warehouse == rows[i].warehouse
                   && entries[i].shipment_date == rows[i].shipment_date
                   && entries[i].delivery_date == rows[i].delivery_date
                   && entries[i].number_in_day == rows[i].number_in_day
                   && entries[i].status == rows[i].status
                   && entries[i].labelText == ShipmentLabel(rows[i].warehouse, rows[i].shipment_date, rows[i].number_in_day)
  {
    match db(AllQuery)
    case QueryError(m) => Exchange(Some(AllQuery), AllError(400, m))
    case Rows(rows) => Exchange(Some(AllQuery), AllListed(seq(|rows|, i requires 0 <= i < |rows| => Entry(rows[i]))))
  }

  /** `a` sorts no later than `b` in code-unit order (ISO dates compare this way). */
  predicate TextLe(a: string, b: string)
    decreases |a|
  {
    a == [] || (b != [] && (a[0] < b[0] || (a[0] == b[0] && TextLe(a[1..], b[1..]))))
  }

  /** The database honoured `AllQuery`: newest date first, then highest counter,
      and no more rows than the limit. */
  predicate NewestFirst(rows: seq<ShipmentRecord>) {
    && |rows| <= 500
    && forall i, j :: 0 <= i < j < |rows| ==>
         TextLe(rows[j].shipment_date, rows[i].shipment_date)
         && (rows[i].shipment_date == rows[j].shipment_date ==> rows[j].number_in_day <= rows[i].number_in_day)
  }

  /** The list keeps the database's order: when the rows honour the query, the
      entries are newest first and at most 500, and equal dates list higher
      counters first, so their labels stay distinct. */
  lemma AllShipmentsKeepsOrder(db: Query -> QueryReply<ShipmentRecord>)
    requires db(AllQuery).Rows? && NewestFirst(db(AllQuery).rows)
    requires forall i :: 0 <= i < |db(AllQuery).rows| ==> db(AllQuery).rows[i].number_in_day >= 0
    ensures var e := AllShipments(db).response.entries;
            && |e| <= 500
            && forall i, j :: 0 <= i < j < |e| ==>
                 && TextLe(e[j].shipment_date, e[i].shipment_date)
                 && (e[i].shipment_date == e[j].shipment_date ==> e[j].number_in_day <= e[i].number_in_day)
                 && ((e[i].warehouse == e[j].warehouse && e[i].shipment_date == e[j].shipment_date
                      && e[i].number_in_day != e[j].number_in_day) ==> e[i].labelText != e[j].labelText)
  {
    var e := AllShipments(db).response.entries;
    var rows := db(AllQuery).rows;
    forall i, j | 0 <= i < j < |e|
      ensures (e[i].warehouse == e[j].warehouse && e[i].shipment_date == e[j].shipment_date
               && e[i].number_in_day != e[j].number_in_day) ==> e[i].labelText != e[j].labelText
    {
      if e[i].warehouse == e[j].warehouse && e[i].shipment_date == e[j].shipment_date && e[i].labelText == e[j].labelText {
        ShipmentLabelInjective(e[i].warehouse, e[i].shipment_date, rows[i].number_in_day, rows[j].number_in_day);
      }
    }
  }
}
