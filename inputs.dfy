/**
 * The input checks of the two GUI front ends (`start_processing` of the advanced
 * script, `process_emails` of the GUI script): an empty sender is refused first;
 * then each date text is parsed as `%Y-%m-%d` unless it is empty, and any parse
 * failure refuses the request. `parseIso` stands for `datetime.strptime(…, '%Y-%m-%d')`.
 */
module Inputs {
  import opened Mail
  import opened QueryBuilder

  /** `datetime.strptime(text, '%Y-%m-%d')`; `None` where it raises ValueError. */
  type IsoDateParser = string -> Option<Date>

  /** `strptime(text, …) if text else None`: `None` is the ValueError, `Some(None)` an absent bound. */
  function OptionalDate(text: string, parseIso: IsoDateParser): (r: Option<Option<Date>>)
    ensures text == "" ==> r == Some(None)
    ensures text != "" ==> (r.None? <==> parseIso(text).None?)
    ensures text != "" && r.Some? ==> r.value == parseIso(text)
  {
    if text == "" then Some(None)
    else
      match parseIso(text)
      case Some(d) => Some(Some(d))
      case None => None
  }

  /** The verdict of the checks: the request to run, or the error dialog shown instead. */
  datatype Validated =
    | Accepted(sender: string, start: Option<Date>, end: Option<Date>)
    | MissingSender   // "Please enter a sender email"
    | InvalidDate     // "Invalid date format. Use YYYY-MM-DD"

  function Validate(sender: string, startText: string, endText: string, parseIso: IsoDateParser): (v: Validated)
    ensures v == MissingSender <==> sender == ""
    ensures v == InvalidDate <==>
              sender != "" && (OptionalDate(startText, parseIso).None? || OptionalDate(endText, parseIso).None?)
    ensures v.Accepted? ==> v.sender == sender
    ensures v.Accepted? ==> (v.start.None? <==> startText == "") && (v.end.None? <==> endText == "")
    ensures v.Accepted? && v.start.Some? ==> parseIso(startText) == v.start
    ensures v.Accepted? && v.end.Some? ==> parseIso(endText) == v.end
  {
    if sender == "" then MissingSender
    else
      match (OptionalDate(startText, parseIso), OptionalDate(endText, parseIso))
      case (Some(s), Some(e)) => Accepted(sender, s, e)
      case _ => InvalidDate
  }
}
