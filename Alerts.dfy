/**
 * The error records that rejected platform calls deliver, and the alert
 * payload `{alerts, header?, size}` that the action button and the file
 * upload build from them for the alert popup.
 */
module Alerts {
  import opened JsValues

  /** One entry of `error.body.output.errors` */
  datatype ErrorItem = ErrorItem(message: Option<string>)

  /** `error.body`: a top-level message and, for field-level failures, a list of errors */
  datatype ErrorBody = ErrorBody(message: Option<string>, outputErrors: Option<seq<ErrorItem>>)

  /** The value a rejected platform call hands to `.catch` */
  datatype PlatformError = PlatformError(body: Option<ErrorBody>, statusText: Option<string>)

  /**
   * An error thrown by script code (a `TypeError` or a `SyntaxError`): it has
   * neither a `body` nor a `statusText`.
   */
  const ScriptError := PlatformError(None, None)

  datatype AlertType = Info | Success | Error

  datatype Alert = Alert(kind: AlertType, title: Option<string>, message: Option<string>)

  /** The popup payload; `header` is None when the property is absent or undefined */
  datatype AlertConfig = AlertConfig(alerts: seq<Alert>, header: Option<string>, size: string)

  const SmallSize := "small"

  /** `error.body?.message` */
  function BodyMessage(e: PlatformError): Option<string> {
    match e.body
    case Some(b) => b.message
    case None => None
  }

  /** `error.body?.output?.errors`; any array there is truthy, an empty one included */
  function FieldErrors(e: PlatformError): Option<seq<ErrorItem>> {
    match e.body
    case Some(b) => b.outputErrors
    case None => None
  }

  function ErrorAlert(message: Option<string>): Alert {
    Alert(Error, None, message)
  }

  /** The alerts pushed for a list of field-level errors */
  function FieldAlerts(errors: seq<ErrorItem>): (r: seq<Alert>)
    ensures |r| == |errors|
    ensures forall a :: a in r ==> a.kind == Error && a.title == None
  {
    if errors == [] then [] else [ErrorAlert(errors[0].message)] + FieldAlerts(errors[1..])
  }

  /** The payload built for a rejected call */
  function ErrorAlertConfig(e: PlatformError): (r: AlertConfig)
    ensures r.size == SmallSize
    ensures forall a :: a in r.alerts ==> a.kind == Error && a.title == None
    ensures FieldErrors(e).None? ==> |r.alerts| == 1 && r.header == None
    ensures FieldErrors(e).Some? ==> |r.alerts| == |FieldErrors(e).value| && r.header == BodyMessage(e)
  {
    match FieldErrors(e)
    case Some(errors) => AlertConfig(FieldAlerts(errors), BodyMessage(e), SmallSize)
    case None => AlertConfig([ErrorAlert(OrElse(BodyMessage(e), e.statusText))], None, SmallSize)
  }

  /** One error alert per field-level error, same count, same order */
  lemma {:induction false} FieldAlertsAt(errors: seq<ErrorItem>)
    ensures |FieldAlerts(errors)| == |errors|
    ensures forall i :: 0 <= i < |errors| ==> FieldAlerts(errors)[i] == ErrorAlert(errors[i].message)
  {
    if errors != [] {
      FieldAlertsAt(errors[1..]);
    }
  }

  /**
   * What the payload for a rejected call holds: with field-level errors, the
   * top-level message as header and one error alert per field error in order;
   * otherwise a single error alert with `body.message || statusText` and no
   * header (no technical-error fallback); always the small size.
   */
  lemma ErrorAlertConfigShape(e: PlatformError)
    ensures ErrorAlertConfig(e).size == "small"
    ensures forall a :: a in ErrorAlertConfig(e).alerts ==> a.kind == Error && a.title == None
    ensures FieldErrors(e).Some? ==>
      var errors := FieldErrors(e).value;
      && ErrorAlertConfig(e).header == BodyMessage(e)
      && |ErrorAlertConfig(e).alerts| == |errors|
      && forall i :: 0 <= i < |errors| ==> ErrorAlertConfig(e).alerts[i].message == errors[i].message
    ensures FieldErrors(e).None? ==>
      && ErrorAlertConfig(e).header == None
      && ErrorAlertConfig(e).alerts == [ErrorAlert(if TruthyString(BodyMessage(e)) then BodyMessage(e) else e.statusText)]
  {
    if FieldErrors(e).Some? {
      FieldAlertsAt(FieldErrors(e).value);
    }
  }

  /**
   * Builds the popup payload for a rejected call the way the handlers do:
   * start from `{alerts: [], size: 'small'}` and push one alert per error.
   */
  method NormalizeError(e: PlatformError) returns (config: AlertConfig)
    ensures config == ErrorAlertConfig(e)
  {
    config := AlertConfig([], None, SmallSize);
    match FieldErrors(e)
    case Some(errors) =>
      config := config.(header := BodyMessage(e));
      var i := 0;
      while i < |errors|
        invariant 0 <= i <= |errors|
        invariant config.header == BodyMessage(e) && config.size == SmallSize
        invariant |config.alerts| == i
        invariant forall k :: 0 <= k < i ==> config.alerts[k] == ErrorAlert(errors[k].message)
      {
        config := config.(alerts := config.alerts + [ErrorAlert(errors[i].message)]);
        i := i + 1;
      }
      FieldAlertsAt(errors);
    case None =>
      config := config.(alerts := config.alerts + [ErrorAlert(OrElse(BodyMessage(e), e.statusText))]);
  }
}
