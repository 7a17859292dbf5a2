/**
 * The spreadsheet side: the payload written to a sheet (a header row, then
 * the filtered rows), the per-sheet export (`update_*`: fetch, filter,
 * build the payload) and the choice of sheets by name (`main`). The
 * authenticated write itself is not part of this model.
 */
module Sheet {
  import opened Wrappers
  import opened CallRecords
  import opened Filter
  import opened Pagination

  /** The column names, in the order of the cells of Filter.Row. */
  const Header: seq<Cell> := [
    Text("ID"), Text("Phone Number"), Text("Duration (seconds)"), Text("Start Time"),
    Text("End Time"), Text("Summary"), Text("Success Evaluation"), Text("Transcript")]

  /** `values = [[header]] + filtered_calls` */
  function SheetValues(rows: seq<seq<Cell>>): (values: seq<seq<Cell>>)
    ensures |values| == 1 + |rows| && values[0] == Header
    ensures forall i :: 0 <= i < |rows| ==> values[i + 1] == rows[i]
  {
    [Header] + rows
  }

  /** The payload is the header followed by the rows, and it is rectangular: 8 cells in every row. */
  lemma PayloadShape(parse: string -> Option<real>, calls: seq<CallRecord>, minDuration: real)
    ensures var rows := Filtered(parse, calls, minDuration);
      && |SheetValues(rows)| == 1 + |rows|
      && SheetValues(rows)[0] == Header
      && SheetValues(rows)[1..] == rows
      && forall row :: row in SheetValues(rows) ==> |row| == 8
  {
    EveryRowQualifies(parse, calls, minDuration);
  }

  /** One exported sheet: its name and the environment variable holding its assistant id. */
  datatype Target = Target(sheetName: string, assistantIdVariable: string)

  /** The range written: columns A to H of the named sheet. */
  function RangeName(target: Target): (range: string)
    ensures |range| == |target.sheetName| + 5
    ensures range[..|target.sheetName|] == target.sheetName
    ensures range[|target.sheetName|..] == "!A1:H"
  {
    target.sheetName + "!A1:H"
  }

  /** Distinct sheet names give distinct ranges, so no two targets overwrite each other. */
  lemma RangeNameInjective(a: Target, b: Target)
    ensures RangeName(a) == RangeName(b) <==> a.sheetName == b.sheetName
  {
    if RangeName(a) == RangeName(b) {
      assert a.sheetName == RangeName(a)[..|a.sheetName|];
    }
  }

  /** The sheets updated when no name is given, in this order. */
  const Targets: seq<Target> := [
    Target("pepfactor_outbound", "ASSISTANT_ID"),
    Target("pepfactor_inbound", "INBOUND_ASSISTANT_ID"),
    Target("greycorp_outbound", "GREYCORP_OUT_ASSISTANT_ID"),
    Target("greycorp_inbound", "GREYCORP_IN_ASSISTANT_ID")]

  /**
   * `main(sheet_name)`: no name updates every sheet; a known name updates
   * that one sheet; an unknown name updates nothing.
   */
  function Plan(sheetName: Option<string>): (plan: seq<Target>)
    ensures sheetName.None? ==> plan == Targets
    ensures sheetName.Some? ==>
      (plan == [] <==> forall t :: t in Targets ==> t.sheetName != sheetName.value)
    ensures sheetName.Some? && plan != [] ==>
      |plan| == 1 && plan[0] in Targets && plan[0].sheetName == sheetName.value
  {
    match sheetName
    case None => Targets
    case Some(name) =>
      if name == "pepfactor_outbound" then [Targets[0]]
      else if name == "pepfactor_inbound" then [Targets[1]]
      else if name == "greycorp_outbound" then [Targets[2]]
      else if name == "greycorp_inbound" then [Targets[3]]
      else []
  }

  /**
   * `update_*` up to the write: fetch every call of the assistant, filter
   * with the default threshold, put the header on top and name the range
   * of the target sheet.
   */
  method ExportValues(api: Request -> seq<CallRecord>, parse: string -> Option<real>,
                      target: Target, assistantId: string)
    returns (range: string, values: seq<seq<Cell>>, sent: seq<Request>)
    requires exists n :: Paginates(api, assistantId, n)
    requires forall s :: IsTrace(api, assistantId, s) ==>
      NoMissingKey(parse, Flatten(Pages(api, s)), DefaultMinDuration)
    ensures range == RangeName(target)
    ensures IsTrace(api, assistantId, sent)
    ensures values == SheetValues(Filtered(parse, Flatten(Pages(api, sent)), DefaultMinDuration))
  {
    var calls;
    calls, sent := FetchCallLogs(api, assistantId);
    var filtered := FilterCalls(parse, calls, DefaultMinDuration);
    range := RangeName(target);
    values := SheetValues(filtered);
  }
}
