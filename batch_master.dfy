/** The batch list (src/pages/BatchCreation/Batchmaster.jsx): a table of all
    batches with edit, QR and delete actions per row. */
module BatchMaster {
  import opened Wrappers
  import opened Text
  import opened Lists
  import opened Fetch
  import opened Routing

  /** One batch as the list endpoint returns it; the id is used only as
      text (compared, and spliced into URLs), and dates are the backend's raw
      text. */
  datatype BatchRow = BatchRow(
    id: string, batch_number: Option<string>, product_name: Option<string>,
    identification_number: Option<string>,
    manufacture_date: Option<string>, expiry_date: Option<string>)

  function BatchId(b: BatchRow): string
  {
    b.id
  }

  /** The `DELETE` request for one batch. */
  function DeleteRequest(api: string, id: string): (r: Request<()>)
    ensures r.verb == Delete
    ensures r.url == api + "/batches/" + id
  {
    Request(Delete, api + "/batches/" + id, ())
  }

  // ----------------------------------------------------------------------
  // Navigation targets of the row actions
  // ----------------------------------------------------------------------

  /** `handleEdit` */
  function EditPath(id: string): string
  {
    "/batches/production/" + id
  }

  /** `handleQr` */
  function QrPath(id: string): string
  {
    "/batches/" + id
  }

  /** A numeric id, written in decimal, is a plain segment and never the
      literal "production". */
  lemma NumericIdIsPlain(n: nat)
    ensures PlainSegment(NatToDecimal(n)) && NatToDecimal(n) != "production"
  {
    DecimalIsPlain(n);
    assert IsDigit(NatToDecimal(n)[0]);
  }

  lemma LiteralsArePlain()
    ensures PlainSegment("batches") && PlainSegment("production")
  {
    forall i | 0 <= i < |"batches"| ensures "batches"[i] !in "/?#%\\\t\n\r" {
      assert "batches"[i] in "batches";
    }
    forall i | 0 <= i < |"production"| ensures "production"[i] !in "/?#%\\\t\n\r" {
      assert "production"[i] in "production";
    }
  }

  lemma EditPathJoin(id: string)
    ensures EditPath(id) == "/" + Join(["batches", "production", id], "/")
  {
    var parts := ["batches", "production", id];
    assert parts[1..] == ["production", id] && parts[1..][1..] == [id];
    assert Join(["production", id], "/") == "production" + "/" + id;
    assert Join(parts, "/") == "batches" + "/" + ("production" + "/" + id);
  }

  lemma EditPathSegments(id: string)
    requires PlainSegment(id)
    ensures Segments(EditPath(id)) == ["batches", "production", id]
  {
    var parts := ["batches", "production", id];
    EditPathJoin(id);
    LiteralsArePlain();
    assert forall i :: 0 <= i < |parts| ==> PlainSegment(parts[i]);
    SegmentsOfPath(parts);
  }

  lemma ResolveEditSegments(d: string)
    ensures Resolve(BatchRoutes, ["batches", "production", d]) ==
      Some(RouteMatch(BatchEdit, map["id" := d]))
  {
    var parts := ["batches", "production", d];
    forall i | 0 <= i < 4 ensures MatchPattern(BatchRoutes[i].pattern, parts).None? {
      if i == 1 {
        LiteralMismatch(BatchRoutes[i].pattern, parts);
      } else if i == 2 {
        assert MatchPattern(BatchRoutes[i].pattern[1..], parts[1..]).None?;
      } else if i == 3 {
        assert MatchPattern(BatchRoutes[i].pattern[1..][1..], parts[1..][1..]).None?;
      }
    }
    var m := map["id" := d];
    var route := BatchRoutes[4];
    assert route.pattern == [Lit("batches"), Lit("production"), Param("id")];
    assert MatchPattern(route.pattern, parts) == Some(m) by {
      assert MatchPattern(route.pattern[1..][1..][1..], parts[1..][1..][1..]) == Some(map[]);
    }
    ResolveAt(BatchRoutes, 4, parts, m);
  }

  lemma ResolveQrSegments(d: string)
    requires d != "production"
    ensures Resolve(BatchRoutes, ["batches", d]) == Some(RouteMatch(BatchQrCode, map["id" := d]))
  {
    var parts := ["batches", d];
    forall i | 0 <= i < 5 ensures MatchPattern(BatchRoutes[i].pattern, parts).None? {
      if i == 1 {
        LiteralMismatch(BatchRoutes[i].pattern, parts);
      } else if i == 2 {
        assert MatchPattern(BatchRoutes[i].pattern[1..], parts[1..]).None?;
      } else if i == 3 || i == 4 {
        LiteralMismatch(BatchRoutes[i].pattern[1..], parts[1..]);
      }
    }
    var m := map["id" := d];
    var route := BatchRoutes[5];
    assert route.pattern == [Lit("batches"), Param("id")];
    assert MatchPattern(route.pattern, parts) == Some(m) by {
      assert MatchPattern(route.pattern[1..][1..], parts[1..][1..]) == Some(map[]);
    }
    ResolveAt(BatchRoutes, 5, parts, m);
  }

  /** The edit action opens the batch form in edit mode for that batch, with
      the id as route parameter, for any id that is one plain segment. */
  lemma EditPathOpensForm(id: string)
    requires PlainSegment(id)
    ensures ResolvePath(BatchRoutes, EditPath(id)) == Some(RouteMatch(BatchEdit, map["id" := id]))
  {
    EditPathSegments(id);
    ResolveEditSegments(id);
  }

  lemma QrPathSegments(id: string)
    requires PlainSegment(id)
    ensures Segments(QrPath(id)) == ["batches", id]
  {
    var parts := ["batches", id];
    assert QrPath(id) == "/" + Join(parts, "/");
    LiteralsArePlain();
    SegmentsOfPath(parts);
  }

  /** The QR action opens the batch's QR page, with the id as parameter,
      for a plain id other than "production". */
  lemma QrPathOpensQrPage(id: string)
    requires PlainSegment(id) && id != "production"
    ensures ResolvePath(BatchRoutes, QrPath(id)) == Some(RouteMatch(BatchQrCode, map["id" := id]))
  {
    QrPathSegments(id);
    ResolveQrSegments(id);
  }

  /** A batch whose id is "production" is the exception: its QR action opens
      the empty creation form, which the router ranks above the QR page. */
  lemma ProductionIdOpensCreateForm()
    ensures ResolvePath(BatchRoutes, QrPath("production")) == Some(RouteMatch(BatchCreate, map[]))
  {
    LiteralsArePlain();
    QrPathSegments("production");
    var parts := ["batches", "production"];
    forall i | 0 <= i < 3 ensures MatchPattern(BatchRoutes[i].pattern, parts).None? {
      if i == 1 {
        LiteralMismatch(BatchRoutes[i].pattern, parts);
      } else if i == 2 {
        assert MatchPattern(BatchRoutes[i].pattern[1..], parts[1..]).None?;
      }
    }
    assert MatchPattern(BatchRoutes[3].pattern, parts) == Some(map[]) by {
      assert MatchPattern(BatchRoutes[3].pattern[1..][1..], parts[1..][1..]) == Some(map[]);
    }
    ResolveAt(BatchRoutes, 3, parts, map[]);
  }

  // ----------------------------------------------------------------------
  // The table
  // ----------------------------------------------------------------------

  /** A table cell: plain text, or a date in the `en-US` short format. */
  datatype Cell = TextCell(text: string) | LocaleDateCell(raw: string)

  datatype RowView = RowView(
    batchNumber: Cell, productName: Cell, identificationNumber: Cell,
    manufactureDate: Cell, expiryDate: Cell, editPath: string, qrPath: string)

  const NotAvailable := "N/A"

  function DateCellOf(v: Option<string>): Cell
  {
    if Truthy(v) then LocaleDateCell(v.value) else TextCell(NotAvailable)
  }

  /** One row: batch number and product name as they are (nothing when
      missing), "N/A" for a missing identification number or date. */
  function RowOf(b: BatchRow): RowView
  {
    RowView(TextCell(OrEmpty(b.batch_number)), TextCell(OrEmpty(b.product_name)),
            TextCell(if Truthy(b.identification_number) then b.identification_number.value else NotAvailable),
            DateCellOf(b.manufacture_date), DateCellOf(b.expiry_date),
            EditPath(b.id), QrPath(b.id))
  }

  /** Which cells fall back to "N/A": exactly the missing identification
      number and the missing dates; present values are shown unchanged. */
  lemma RowFallbacks(b: BatchRow)
    ensures RowOf(b).identificationNumber == TextCell(NotAvailable) <==>
      !Truthy(b.identification_number) || b.identification_number.value == NotAvailable
    ensures Truthy(b.identification_number) ==> RowOf(b).identificationNumber == TextCell(b.identification_number.value)
    ensures RowOf(b).manufactureDate == TextCell(NotAvailable) <==> !Truthy(b.manufacture_date)
    ensures RowOf(b).expiryDate == TextCell(NotAvailable) <==> !Truthy(b.expiry_date)
    ensures Truthy(b.manufacture_date) ==> RowOf(b).manufactureDate == LocaleDateCell(b.manufacture_date.value)
    ensures Truthy(b.expiry_date) ==> RowOf(b).expiryDate == LocaleDateCell(b.expiry_date.value)
    ensures RowOf(b).batchNumber == TextCell(if Truthy(b.batch_number) then b.batch_number.value else "")
    ensures RowOf(b).productName == TextCell(if Truthy(b.product_name) then b.product_name.value else "")
  {
  }

  datatype MasterView = Spinner | ErrorText(text: string) | Table(rows: seq<RowView>)

  class BatchMasterPage {
    var batches: seq<BatchRow>
    var loading: bool
    var error: bool

    constructor()
      ensures batches == [] && loading && !error
    {
      batches, loading, error := [], true, false;
    }

    /** The list request settles. */
    method FetchSettled(outcome: Result<seq<BatchRow>>)
      modifies this
      ensures !loading
      ensures outcome.Ok? ==> batches == outcome.value && error == old(error)
      ensures outcome.Err? ==> batches == old(batches) && error
    {
      match outcome {
        case Ok(rows) =>
          batches := rows;
        case Err(_) =>
          error := true;
      }
      loading := false;
    }

    /** A click on a row's delete button: the `DELETE` request goes out, and
        the handler keeps the list as it was at the click; nothing changes
        yet. */
    method ClickDelete(api: string, id: string) returns (request: Request<()>, captured: seq<BatchRow>)
      ensures request == DeleteRequest(api, id)
      ensures captured == batches
    {
      request := DeleteRequest(api, id);
      captured := batches;
    }

    /** The `DELETE` settles: on success the list becomes the list captured
        at the click without the rows of that id, the rest in their order;
        on failure the list is unchanged and the user is alerted. A list
        captured before another delete settled brings that batch back. */
    method DeleteSettled(id: string, captured: seq<BatchRow>, deleted: bool) returns (alerted: bool)
      modifies this
      ensures deleted ==> batches == RemoveKey(captured, BatchId, id) && !alerted
      ensures !deleted ==> batches == old(batches) && alerted
      ensures loading == old(loading) && error == old(error)
    {
      if deleted {
        batches := RemoveKey(captured, BatchId, id);
        alerted := false;
      } else {
        alerted := true;
      }
    }

    /** The spinner while loading, then the error text, and only then the
        table, one row per batch in list order. */
    function View(): (v: MasterView)
      reads this
      ensures v.Spinner? <==> loading
      ensures v.ErrorText? <==> !loading && error
      ensures v.Table? ==> |v.rows| == |batches| && forall i :: 0 <= i < |batches| ==> v.rows[i] == RowOf(batches[i])
    {
      if loading then Spinner
      else if error then ErrorText("Error loading data")
      else Table(seq(|batches|, i requires 0 <= i < |batches| reads this => RowOf(batches[i])))
    }
  }

  /** Deleting a batch whose id is unique in the list removes exactly that
      row. */
  lemma DeleteUniqueBatch(rows: seq<BatchRow>, i: nat)
    requires i < |rows|
    requires forall j :: 0 <= j < |rows| && j != i ==> rows[j].id != rows[i].id
    ensures RemoveKey(rows, BatchId, rows[i].id) == rows[..i] + rows[i + 1..]
  {
    RemoveKeyUnique(rows, BatchId, i);
  }

  /** Two successful deletes of batches a and b. Clicked one after the other
      settles, the second filters the already filtered list and both batches
      are gone; clicked before either settles, each filters the list of its
      own click, so the last settlement brings batch a back although the
      backend has deleted it. */
  lemma DeleteOrderMatters(rows: seq<BatchRow>, a: string, b: string, k: nat)
    requires a != b && k < |rows| && rows[k].id == a
    ensures forall i :: 0 <= i < |RemoveKey(RemoveKey(rows, BatchId, a), BatchId, b)| ==>
      RemoveKey(RemoveKey(rows, BatchId, a), BatchId, b)[i].id !in {a, b}
    ensures rows[k] in RemoveKey(rows, BatchId, b)
  {
  }

  /** The sequence the page runs through: both clicks, then both
      settlements in click order, each successful. */
  method OverlappingDeletes(rows: seq<BatchRow>, api: string, a: string, b: string) returns (remaining: seq<BatchRow>)
    requires a != b && exists k :: 0 <= k < |rows| && rows[k].id == a
    ensures exists k :: 0 <= k < |remaining| && remaining[k].id == a
  {
    var page := new BatchMasterPage();
    page.FetchSettled(Ok(rows));
    var _, capturedA := page.ClickDelete(api, a);
    var _, capturedB := page.ClickDelete(api, b);
    var _ := page.DeleteSettled(a, capturedA, true);
    var _ := page.DeleteSettled(b, capturedB, true);
    remaining := page.batches;
    var k :| 0 <= k < |rows| && rows[k].id == a;
    assert rows[k] in remaining;
  }
}
