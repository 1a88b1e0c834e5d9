/*
 * Option and Result wrappers used throughout the model, and the kinds of
 * failure the SIE 4 reader and writer report.  Every exception the Java
 * code throws becomes an `Err` carrying one of these kinds.
 */
module Wrappers {

  datatype Option<+T> = None | Some(value: T)

  /** Why an operation failed. */
  datatype Error =
    | BlankLine                          // splitLine on a blank line
    | MissingFields                      // a line holding only its tag
    | EmptyLabel                         // a line whose tag part is empty
    | UnknownLabel(name: string)         // Label.valueOf on an unknown tag
    | FieldCount(tag: string)          // wrong number of fields for a tag
    | MissingField(index: nat)           // fields.get(index) out of range
    | NumberFormat(text: string)         // Integer.parseInt / new BigDecimal
    | DateFormat(text: string)           // LocalDate.parse with yyyyMMdd
    | PeriodFormat(text: string)         // Period.of(String)
    | InvalidValue(text: string)         // enum valueOf, FORMAT, year number, period range
    | OddObjectReferences(text: string)  // odd token count in an object list
    | ObjectReferenceCount(tag: string)
    | NotTransaction                     // a VER block line that is not a transaction
    | VerNotAllowed                      // toModel(String) given a VER line
    | NotVer                             // toModel(List) whose first line is not VER
    | EmptyBlock                         // toModel(List) given no lines
    | CouldNotParseFields(text: string, cause: Error)
    | MoreThanOne(tag: string)         // getItem with several matching items
    | ValidationFailed(message: string)  // write refused by the validator
    | ToBeforeFrom                       // FinancialYear with to before from
    | DateOutOfRange                     // LocalDate arithmetic beyond its range

  datatype Result<+T> = Ok(value: T) | Err(error: Error)
  {
    predicate IsFailure() {
      Err?
    }

    function PropagateFailure<U>(): Result<U>
      requires Err?
    {
      Err(error)
    }

    function Extract(): T
      requires Ok?
    {
      value
    }
  }
}
