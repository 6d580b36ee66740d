/**
 * The spreadsheet client: one append of one row to the columns A..G of a
 * named sheet.  The remote service is abstract: it records every request
 * it receives in a ghost log and answers success or failure
 * nondeterministically.
 */
module Sheets {
  import opened Common

  /** The columns every row is appended to, after the sheet name. */
  const ColumnsSuffix: string := "!A:G"

  /** The value input option: the service interprets cells as if typed in by a user. */
  const UserEntered: string := "USER_ENTERED"

  /** One values.append request. */
  datatype AppendRequest = AppendRequest(
    spreadsheetId: string,
    range: string,
    rows: seq<seq<string>>,
    valueInputOption: string)

  datatype AppendError =
    | EmptySpreadsheetId   // refused before any call
    | ServiceUnavailable   // no authenticated service; see AppendRowAsWritten
    | Remote               // the one remote call failed; reported unchanged

  /** The A1 range "<sheet>!A:G". */
  function RangeFor(sheetName: string): (range: string)
    ensures SheetOf(range) == Some(sheetName)
  {
    sheetName + ColumnsSuffix
  }

  /** The sheet a range "<sheet>!A:G" names, if it has that form. */
  function SheetOf(range: string): Option<string> {
    if |range| >= |ColumnsSuffix| && range[|range| - |ColumnsSuffix|..] == ColumnsSuffix
    then Some(range[..|range| - |ColumnsSuffix|])
    else None
  }

  /** Every range of the "<sheet>!A:G" form is the range of its sheet. */
  lemma RangeRoundTrip(range: string)
    requires SheetOf(range).Some?
    ensures RangeFor(SheetOf(range).value) == range
  {
    var n := |range| - |ColumnsSuffix|;
    assert range == range[..n] + range[n..];
  }

  lemma RangeForExample()
    ensures RangeFor("Sheet1") == "Sheet1!A:G"
  {
  }

  /** Distinct sheet names give distinct ranges. */
  lemma RangeForInjective(a: string, b: string)
    requires RangeFor(a) == RangeFor(b)
    ensures a == b
  {
    assert SheetOf(RangeFor(a)) == Some(a);
  }

  /**
   * What AppendRow does before the remote call: refuse an empty
   * spreadsheet ID, refuse to call without a service, and otherwise build
   * the single-row request.
   */
  function PlanAppend(serviceAvailable: bool, spreadsheetId: string, sheetName: string, values: seq<string>)
    : (plan: Result<AppendRequest, AppendError>)
    ensures plan == Failure(EmptySpreadsheetId) <==> spreadsheetId == ""
    ensures plan == Failure(ServiceUnavailable) <==> spreadsheetId != "" && !serviceAvailable
    ensures plan.Success? <==> spreadsheetId != "" && serviceAvailable
    ensures plan.Success? ==>
              && plan.value.spreadsheetId == spreadsheetId
              && SheetOf(plan.value.range) == Some(sheetName)
              && |plan.value.rows| == 1 && plan.value.rows[0] == values
              && plan.value.valueInputOption == UserEntered
  {
    if spreadsheetId == "" then Failure(EmptySpreadsheetId)
    else if !serviceAvailable then Failure(ServiceUnavailable)
    else Success(AppendRequest(spreadsheetId, RangeFor(sheetName), [values], UserEntered))
  }

  /** The authenticated Sheets service, seen only through the requests it receives. */
  class SheetsService {
    ghost var log: seq<AppendRequest>

    constructor ()
      ensures log == []
    {
      log := [];
    }

    /** Spreadsheets.Values.Append(...).Do(): records the request; success is not up to the caller. */
    method Append(request: AppendRequest) returns (ok: bool)
      modifies this
      ensures log == old(log) + [request]
    {
      log := log + [request];
      ok :| true;
    }
  }

  /**
   * AppendRow: at most one remote call, none when the plan is refused,
   * with no retry; the call's failure is returned as it is.
   */
  method AppendRow(service: SheetsService?, spreadsheetId: string, sheetName: string, values: seq<string>)
    returns (err: Option<AppendError>)
    modifies service
    ensures var plan := PlanAppend(service != null, spreadsheetId, sheetName, values);
            && (plan.Failure? ==> err == Some(plan.error))
            && (service != null && plan.Failure? ==> service.log == old(service.log))
            && (plan.Success? ==> service.log == old(service.log) + [plan.value])
            && (plan.Success? ==> err == None || err == Some(Remote))
  {
    var plan := PlanAppend(service != null, spreadsheetId, sheetName, values);
    if plan.Failure? {
      return Some(plan.error);
    }
    var ok := service.Append(plan.value);
    err := if ok then None else Some(Remote);
  }

  /** What the source's AppendRow does, including the call on a nil service. */
  datatype CallAsWritten = Refused(error: AppendError) | Issued(request: AppendRequest) | NilDereference

  /**
   * AppendRow as written: only the empty spreadsheet ID is guarded, so
   * with no service it dereferences nil and the program panics.
   */
  function AppendRowAsWritten(serviceAvailable: bool, spreadsheetId: string, sheetName: string, values: seq<string>)
    : (call: CallAsWritten)
    ensures call.NilDereference? <==> spreadsheetId != "" && !serviceAvailable
  {
    if spreadsheetId == "" then Refused(EmptySpreadsheetId)
    else if !serviceAvailable then NilDereference
    else Issued(AppendRequest(spreadsheetId, RangeFor(sheetName), [values], UserEntered))
  }

  /**
   * With a spreadsheet ID configured but no service, the source panics
   * where the corrected plan reports ServiceUnavailable; in every other
   * case the two agree.
   */
  lemma AsWrittenPanicsWithoutService(spreadsheetId: string, sheetName: string, values: seq<string>)
    ensures AppendRowAsWritten(false, "sheet-1", sheetName, values) == NilDereference
    ensures spreadsheetId != "" ==>
              PlanAppend(false, spreadsheetId, sheetName, values) == Failure(ServiceUnavailable)
    ensures forall available: bool ::
              match AppendRowAsWritten(available, spreadsheetId, sheetName, values)
              case Refused(e) => PlanAppend(available, spreadsheetId, sheetName, values) == Failure(e)
              case Issued(r) => PlanAppend(available, spreadsheetId, sheetName, values) == Success(r)
              case NilDereference => PlanAppend(available, spreadsheetId, sheetName, values) == Failure(ServiceUnavailable)
  {
  }
}
