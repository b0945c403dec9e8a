/**
 * What one POST to the scanner relay yields, once `fetch`, `response.text()`
 * and the browser's XML parser have run, and how the listening loop of
 * app/UI/finger-print.tsx classifies it.
 */
module ScannerReply {
  import opened Wrappers

  /** The result of one capture request.
      `Ok` carries the text content of the first `ErrorCode`, `TemplateBase64`
      and `BMPBase64` elements, `None` when the element is absent (the
      optional chaining `?.textContent` then yields `undefined`). A body that
      is not XML parses to an error document without these elements. */
  datatype Reply =
    | TransportError   // fetch, or reading the body, threw
    | NotOk            // HTTP status outside 200-299
    | Ok(errorCode: Option<string>, template: Option<string>, image: Option<string>)

  /** The four ways the loop body reacts to a reply. */
  datatype Outcome =
    | Captured(template: Option<string>, image: Option<string>)
    | Retry
    | ScannerError
    | ConnectionError

  const SuccessCode: string := "0"
  const TimeoutCode: string := "30"
  const NoFingerCode: string := "31"

  /** Classification by exact string comparison of the `ErrorCode` text. */
  function Classify(r: Reply): (o: Outcome)
    ensures o.Captured? <==> r.Ok? && r.errorCode == Some(SuccessCode)
    ensures o.Captured? ==> o.template == r.template && o.image == r.image
    ensures o.Retry? <==> r.Ok? && (r.errorCode == Some(TimeoutCode) || r.errorCode == Some(NoFingerCode))
    ensures o.ScannerError? <==>
              r.Ok? && r.errorCode !in {Some(SuccessCode), Some(TimeoutCode), Some(NoFingerCode)}
    ensures o.ConnectionError? <==> !r.Ok?
  {
    match r
    case Ok(code, template, image) =>
      if code == Some("0") then Captured(template, image)
      else if code == Some("30") || code == Some("31") then Retry
      else ScannerError
    case _ => ConnectionError
  }

  /** A reply after which the loop goes round again. */
  predicate IsRetry(r: Reply) {
    Classify(r).Retry?
  }
}
