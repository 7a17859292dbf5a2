/** The Option type used for fields that a call object may or may not carry. */
module Wrappers {
  datatype Option<+T> = None | Some(value: T) {
    /** The value, or the given default when there is none (Python's `dict.get(key, default)`). */
    function GetOr(default: T): (r: T)
      ensures Some? ==> r == value
      ensures None? ==> r == default
    {
      match this
      case Some(v) => v
      case None => default
    }
  }
}

/**
 * A call record as the call-log API returns it, and the cells of the rows
 * written to the spreadsheet. A JSON key that the object lacks is `None`.
 */
module CallRecords {
  import opened Wrappers

  /** The nested `customer` object; only its `number` is read. */
  datatype Customer = Customer(number: Option<string>)

  /** The nested `analysis` object; only `summary` and `successEvaluation` are read. */
  datatype Analysis = Analysis(summary: Option<string>, successEvaluation: Option<string>)

  datatype CallRecord = CallRecord(
    id: Option<string>,
    createdAt: Option<string>,
    customer: Option<Customer>,
    startedAt: Option<string>,
    endedAt: Option<string>,
    transcript: Option<string>,
    analysis: Option<Analysis>)

  /** A spreadsheet cell: the rows mix strings with the numeric duration. */
  datatype Cell = Text(text: string) | Number(seconds: real)

  /** The default written for a missing phone number, summary or success evaluation. */
  const NotAvailable: string := "N/A"

  /** Phone numbers whose calls are never exported. */
  const ExcludedPhoneNumbers: seq<string> := ["+61430960262", "+16197647586", "+14587773760"]

  /** `call.get('customer', {}).get('number', 'N/A')` */
  function PhoneNumber(call: CallRecord): (r: string)
    ensures r == NotAvailable || (call.customer.Some? && call.customer.value.number == Some(r))
  {
    match call.customer
    case None => NotAvailable
    case Some(c) => c.number.GetOr(NotAvailable)
  }

  /** `call.get('analysis', {}).get('summary', 'N/A')` */
  function Summary(call: CallRecord): (r: string)
    ensures r == NotAvailable || (call.analysis.Some? && call.analysis.value.summary == Some(r))
  {
    match call.analysis
    case None => NotAvailable
    case Some(a) => a.summary.GetOr(NotAvailable)
  }

  /** `call.get('analysis', {}).get('successEvaluation', 'N/A')` */
  function SuccessEvaluation(call: CallRecord): (r: string)
    ensures r == NotAvailable || (call.analysis.Some? && call.analysis.value.successEvaluation == Some(r))
  {
    match call.analysis
    case None => NotAvailable
    case Some(a) => a.successEvaluation.GetOr(NotAvailable)
  }

  /** A call without a customer number is reported as "N/A", and "N/A" is never an excluded number. */
  lemma MissingNumberIsNotExcluded(call: CallRecord)
    requires call.customer.None? || call.customer.value.number.None?
    ensures PhoneNumber(call) == NotAvailable
    ensures PhoneNumber(call) !in ExcludedPhoneNumbers
  {
  }

  /** A present value always wins over the "N/A" default, and an absent one gives "N/A". */
  lemma PresentFieldsAreCopied(call: CallRecord)
    ensures call.customer.Some? && call.customer.value.number.Some? ==>
      PhoneNumber(call) == call.customer.value.number.value
    ensures call.analysis.Some? && call.analysis.value.summary.Some? ==>
      Summary(call) == call.analysis.value.summary.value
    ensures call.analysis.Some? && call.analysis.value.successEvaluation.Some? ==>
      SuccessEvaluation(call) == call.analysis.value.successEvaluation.value
    ensures call.analysis.None? ==> Summary(call) == NotAvailable && SuccessEvaluation(call) == NotAvailable
    ensures call.analysis.Some? && call.analysis.value.summary.None? ==> Summary(call) == NotAvailable
    ensures call.analysis.Some? && call.analysis.value.successEvaluation.None? ==>
      SuccessEvaluation(call) == NotAvailable
  {
  }
}
