/**
 * The action button: on click it parses its `buttonAction` attribute into an
 * action descriptor, invokes the matching record operation (create, update
 * or delete) once, and then either navigates to the record, asks for a
 * record data reload, does nothing, or shows an alert popup for the error.
 *
 * The platform operations are not modelled: the handler receives the
 * operation's outcome as a parameter and returns every request it makes.
 */
module ActionButton {
  import opened JsValues
  import opened Alerts

  /** The parsed action: its `type`, `params`, `navigate` and `reload` properties */
  datatype Descriptor = Descriptor(kind: Option<Json>, params: Option<Json>, navigate: Option<Json>, reload: Option<Json>)

  /** The `buttonAction` attribute: falsy, not JSON, or a parsed descriptor object */
  datatype ButtonAction = Blank | NotJson | Configured(descriptor: Descriptor)

  datatype RecordOperation = CreateRecord | UpdateRecord | DeleteRecord

  /** One call to a record operation, with the parameters it receives */
  datatype OperationCall = OperationCall(operation: RecordOperation, params: Option<Json>)

  /**
   * How the operation settles: with a result carrying a `recordId`, with no
   * result at all (`deleteRecord` resolves with undefined), or rejected
   */
  datatype OperationOutcome = Completed(recordId: Option<string>) | CompletedWithoutData | Rejected(error: PlatformError)

  /** A `standard__recordPage` navigation target */
  datatype RecordPage = RecordPage(recordId: string, objectApiName: Option<Json>, actionName: string)

  /** Every request one click makes: record operation calls, navigations, reload notifications, alert popups */
  datatype Effects = Effects(
    calls: seq<OperationCall>,
    navigations: seq<RecordPage>,
    reloads: seq<Json>,
    popups: seq<AlertConfig>)

  const NoEffects := Effects([], [], [], [])

  /** The `switch` on `actionDetails.type`: strict equality with the three names */
  function OperationFor(kind: Option<Json>): (r: Option<RecordOperation>)
    ensures r.Some? ==> kind.Some? && kind.value.JStr? && kind.value.s in {"create", "update", "delete"}
  {
    if kind == Some(JStr("create")) then Some(CreateRecord)
    else if kind == Some(JStr("update")) then Some(UpdateRecord)
    else if kind == Some(JStr("delete")) then Some(DeleteRecord)
    else None
  }

  /**
   * `actionDetails.params.apiName`; None when `params` is undefined or null,
   * where reading the property throws a TypeError.
   */
  function ApiName(params: Option<Json>): (r: Option<Option<Json>>)
    ensures r.None? <==> params == None || params == Some(JNull)
    ensures r.Some? && r.value.Some? ==>
      params.Some? && params.value.JObj? && "apiName" in params.value.fields && r.value.value == params.value.fields["apiName"]
  {
    match params
    case None => None
    case Some(JNull) => None
    case Some(JObj(fields)) => Some(if "apiName" in fields then Some(fields["apiName"]) else None)
    case Some(_) => Some(None)
  }

  /**
   * The `.then` / `.catch` continuation once the operation has settled. A
   * TypeError thrown while building the navigation target rejects the
   * promise returned by `.then`, so `.catch` reports it as an error.
   */
  function Settle(d: Descriptor, outcome: OperationOutcome): (r: Effects)
    ensures r.calls == []
    ensures |r.navigations| + |r.reloads| + |r.popups| <= 1
    ensures outcome.Rejected? ==> r.popups == [ErrorAlertConfig(outcome.error)]
    ensures r.navigations != [] ==>
      outcome.Completed? && TruthyValue(d.navigate) && TruthyString(outcome.recordId)
      && r.navigations[0].recordId == outcome.recordId.value && r.navigations[0].actionName == "view"
    ensures r.reloads != [] ==> !outcome.Rejected? && TruthyValue(d.reload) && r.reloads == [d.reload.value]
    ensures !outcome.Rejected? && !TruthyValue(d.navigate) ==>
      r.reloads == (if TruthyValue(d.reload) then [d.reload.value] else [])
  {
    match outcome
    case Completed(recordId) =>
      if TruthyValue(d.navigate) && TruthyString(recordId) then
        match ApiName(d.params)
        case Some(apiName) => NoEffects.(navigations := [RecordPage(recordId.value, apiName, "view")])
        case None => NoEffects.(popups := [ErrorAlertConfig(ScriptError)])
      else if TruthyValue(d.reload) then NoEffects.(reloads := [d.reload.value])
      else NoEffects
    case CompletedWithoutData =>
      // reading `data.recordId` throws only when `navigate` is truthy
      if TruthyValue(d.navigate) then NoEffects.(popups := [ErrorAlertConfig(ScriptError)])
      else if TruthyValue(d.reload) then NoEffects.(reloads := [d.reload.value])
      else NoEffects
    case Rejected(error) => NoEffects.(popups := [ErrorAlertConfig(error)])
  }

  /**
   * `handleAction`: a click with the given attribute when the operation, if
   * one is invoked, settles with `outcome`. An attribute that is not JSON
   * makes `JSON.parse` throw out of the handler, so it is excluded.
   */
  function HandleAction(action: ButtonAction, outcome: OperationOutcome): (r: Effects)
    requires !action.NotJson?
    ensures |r.calls| <= 1
    ensures |r.navigations| + |r.reloads| + |r.popups| <= 1
    ensures r.calls == [] ==> r == NoEffects
    ensures action.Configured? && OperationFor(action.descriptor.kind).Some? ==>
      r.calls == [OperationCall(OperationFor(action.descriptor.kind).value, action.descriptor.params)]
  {
    match action
    case Blank => NoEffects
    case Configured(d) =>
      match OperationFor(d.kind)
      case None => NoEffects
      case Some(operation) => Settle(d, outcome).(calls := [OperationCall(operation, d.params)])
  }

  /** The three action names select exactly their own operation, and nothing else selects one */
  lemma OperationForNames(kind: Option<Json>)
    ensures OperationFor(kind) == Some(CreateRecord) <==> kind == Some(JStr("create"))
    ensures OperationFor(kind) == Some(UpdateRecord) <==> kind == Some(JStr("update"))
    ensures OperationFor(kind) == Some(DeleteRecord) <==> kind == Some(JStr("delete"))
    ensures OperationFor(kind).None? <==> kind !in {Some(JStr("create")), Some(JStr("update")), Some(JStr("delete"))}
  {
  }

  /** A blank attribute or an unsupported type does nothing at all */
  lemma NoOperationNoEffect(action: ButtonAction, outcome: OperationOutcome)
    requires action.Blank? || (action.Configured? && OperationFor(action.descriptor.kind).None?)
    ensures HandleAction(action, outcome) == NoEffects
  {
  }

  /**
   * Navigation takes precedence: with `navigate` truthy and a returned record
   * id, one navigation to the record's view page and no reload, even when
   * `reload` is set.
   */
  lemma NavigateTakesPrecedence(d: Descriptor, recordId: string)
    requires OperationFor(d.kind).Some? && TruthyValue(d.navigate) && recordId != ""
    requires d.params.Some? && d.params.value.JObj?
    ensures
      var r := HandleAction(Configured(d), Completed(Some(recordId)));
      var fields := d.params.value.fields;
      && r.navigations == [RecordPage(recordId, if "apiName" in fields then Some(fields["apiName"]) else None, "view")]
      && r.reloads == [] && r.popups == []
  {
  }

  /**
   * A successful operation that does not navigate (a falsy `navigate`, or
   * no record id in the result, or no result at all when `navigate` is
   * falsy) passes a truthy `reload` unchanged to one reload notification;
   * otherwise nothing follows.
   */
  lemma ReloadWithoutNavigation(d: Descriptor, outcome: OperationOutcome)
    requires OperationFor(d.kind).Some?
    requires !outcome.Rejected?
    requires !TruthyValue(d.navigate) || (outcome.Completed? && !TruthyString(outcome.recordId))
    ensures
      var r := HandleAction(Configured(d), outcome);
      && r.navigations == [] && r.popups == []
      && r.reloads == (if TruthyValue(d.reload) then [d.reload.value] else [])
  {
  }

  /** A rejected operation shows exactly one popup, built from the error, and nothing else */
  lemma RejectionShowsAlert(d: Descriptor, error: PlatformError)
    requires OperationFor(d.kind).Some?
    ensures
      var r := HandleAction(Configured(d), Rejected(error));
      && r.popups == [ErrorAlertConfig(error)]
      && r.navigations == [] && r.reloads == []
  {
  }

  /**
   * Navigating with undefined or null `params` throws; the error is caught
   * and shown as a single alert whose message is undefined.
   */
  lemma NavigationWithoutParams(d: Descriptor, recordId: string)
    requires OperationFor(d.kind).Some? && TruthyValue(d.navigate) && recordId != ""
    requires d.params == None || d.params == Some(JNull)
    ensures HandleAction(Configured(d), Completed(Some(recordId))).popups
      == [AlertConfig([Alert(Error, None, None)], None, "small")]
  {
  }

  /**
   * An operation that resolves with no result (a delete) and a truthy
   * `navigate`: reading `data.recordId` throws, and the error is shown as an
   * alert with an undefined message instead of navigating or reloading.
   */
  lemma NavigationWithoutResult(d: Descriptor)
    requires OperationFor(d.kind).Some? && TruthyValue(d.navigate)
    ensures
      var r := HandleAction(Configured(d), CompletedWithoutData);
      && r.popups == [AlertConfig([Alert(Error, None, None)], None, "small")]
      && r.navigations == [] && r.reloads == []
  {
  }
}
