/**
 * The record form component: it shows a record (the current one, or one
 * related to it through a lookup field) with a configured list of fields,
 * fills missing field labels and help texts from the object's metadata, and
 * toggles between read and edit mode around a save.
 *
 * The record data fetch and the form's load event are not modelled as
 * services: the handlers receive what they would deliver.
 */
module RecordForm {
  import opened JsValues

  /** One entry of the parsed `fieldConfig` list; `labelText` is its `label` property */
  datatype FieldItem = FieldItem(
    name: Option<string>,
    size: Option<Json>,
    labelText: Option<string>,
    help: Option<string>,
    hideHelp: Option<Json>)

  /** Field metadata from the object description (`labelText` is its `label`) */
  datatype FieldInfo = FieldInfo(labelText: Option<string>, inlineHelpText: Option<string>)

  /** One entry of the load event's `objectInfos` */
  datatype ObjectInfo = ObjectInfo(fields: Option<map<string, FieldInfo>>)

  /** One entry of the load event's `records` */
  datatype RecordInfo = RecordInfo(recordTypeId: Option<string>)

  /**
   * What the related-record wire delivers: data, with the lookup field's
   * value, or no data (an error, or nothing fetched yet).
   */
  datatype WireResult = WireData(fieldValue: Option<string>) | WireNoData

  datatype MessageKind = InfoMessage | ErrorMessage

  datatype FormMessage = FormMessage(kind: MessageKind, title: string, details: string)

  const SavedMessage := FormMessage(InfoMessage, "Opération effectuée", "Vos changements ont bien été sauvegardés.")
  const FailedMessage := FormMessage(ErrorMessage, "Echec de l'opération", "La sauvegarde de vos modifications n'a pas pu être réalisée.")

  /** An item keeps a truthy size and takes the default size otherwise */
  function WithSize(item: FieldItem, defaultSize: Json): (r: FieldItem)
    ensures r.(size := item.size) == item
    ensures TruthyValue(item.size) ==> r == item
    ensures !TruthyValue(item.size) ==> r.size == Some(defaultSize)
  {
    if TruthyValue(item.size) then item else item.(size := Some(defaultSize))
  }

  /** The metadata key of an item: `objectFields[item.name]` */
  function FieldKey(item: FieldItem): string {
    Display(item.name)
  }

  /** Filling `item` has to look its field up: its label is falsy, or its help is falsy and not hidden */
  predicate NeedsLookup(item: FieldItem) {
    !TruthyString(item.labelText) || (!TruthyValue(item.hideHelp) && !TruthyString(item.help))
  }

  /**
   * An item needs its field's metadata exactly when some metadata would
   * change it; an item that does not need it is left as it is by filling
   * from any metadata.
   */
  lemma NeedsLookupExactly(item: FieldItem, fields: map<string, FieldInfo>)
    ensures !NeedsLookup(item) ==> Filled(item, fields) == item
    ensures NeedsLookup(item) <==> Filled(item, map[FieldKey(item) := FieldInfo(Some("label"), Some("help"))]) != item
  {
  }

  /**
   * One item after label and help filling: a falsy label takes the
   * metadata's label (possibly undefined); a falsy help that is not hidden
   * takes the metadata's help text when that is truthy. Values already
   * present are never overwritten.
   */
  function Filled(item: FieldItem, fields: map<string, FieldInfo>): (r: FieldItem)
    ensures r.name == item.name && r.size == item.size && r.hideHelp == item.hideHelp
    ensures TruthyString(item.labelText) ==> r.labelText == item.labelText
    ensures !TruthyString(item.labelText) ==>
      r.labelText == if FieldKey(item) in fields then fields[FieldKey(item)].labelText else None
    ensures TruthyString(item.help) ==> r.help == item.help
    ensures r.help != item.help <==>
      && !TruthyValue(item.hideHelp) && !TruthyString(item.help)
      && FieldKey(item) in fields && TruthyString(fields[FieldKey(item)].inlineHelpText)
    ensures r.help != item.help ==> r.help == fields[FieldKey(item)].inlineHelpText
  {
    var info := if FieldKey(item) in fields then Some(fields[FieldKey(item)]) else None;
    var labelled := if TruthyString(item.labelText) then item
                    else item.(labelText := if info.Some? then info.value.labelText else None);
    if !TruthyValue(item.hideHelp) && !TruthyString(item.help) && info.Some? && TruthyString(info.value.inlineHelpText)
    then labelled.(help := info.value.inlineHelpText)
    else labelled
  }

  /** Every item filled from the same metadata */
  function FillAll(items: seq<FieldItem>, fields: map<string, FieldInfo>): (r: seq<FieldItem>)
    ensures |r| == |items|
    ensures forall i :: 0 <= i < |items| ==> r[i] == Filled(items[i], fields)
  {
    if items == [] then [] else [Filled(items[0], fields)] + FillAll(items[1..], fields)
  }

  /** Every item given its default size */
  function SizeAll(items: seq<FieldItem>, defaultSize: Json): (r: seq<FieldItem>)
    ensures |r| == |items|
    ensures forall i :: 0 <= i < |items| ==> r[i] == WithSize(items[i], defaultSize)
  {
    if items == [] then [] else [WithSize(items[0], defaultSize)] + SizeAll(items[1..], defaultSize)
  }

  /**
   * Filling keeps the list's length, order and field names, and every label
   * or help already present.
   */
  lemma FillAllKeeps(items: seq<FieldItem>, fields: map<string, FieldInfo>)
    ensures |FillAll(items, fields)| == |items|
    ensures forall i :: 0 <= i < |items| ==> FillAll(items, fields)[i].name == items[i].name
    ensures forall i :: 0 <= i < |items| && TruthyString(items[i].labelText) ==> FillAll(items, fields)[i].labelText == items[i].labelText
    ensures forall i :: 0 <= i < |items| && TruthyString(items[i].help) ==> FillAll(items, fields)[i].help == items[i].help
    ensures forall i :: 0 <= i < |items| && TruthyValue(items[i].hideHelp) ==> FillAll(items, fields)[i].help == items[i].help
  {
  }

  /** Filling twice from the same metadata gives what filling once gives */
  lemma FillAllIdempotent(items: seq<FieldItem>, fields: map<string, FieldInfo>)
    ensures FillAll(FillAll(items, fields), fields) == FillAll(items, fields)
  {
    var once := FillAll(items, fields);
    forall i | 0 <= i < |items|
      ensures Filled(once[i], fields) == once[i]
    {
      var item := items[i];
      var key := FieldKey(item);
      assert FieldKey(once[i]) == key;
      if !TruthyString(item.labelText) && key in fields && !TruthyString(fields[key].labelText) {
        assert once[i].labelText == fields[key].labelText;
      }
    }
  }

  /** Every sized list has a size on each item, and keeps each truthy size */
  lemma SizeAllDefaults(items: seq<FieldItem>, defaultSize: Json)
    ensures forall i :: 0 <= i < |items| ==> SizeAll(items, defaultSize)[i].size.Some?
    ensures forall i :: 0 <= i < |items| && TruthyValue(items[i].size) ==> SizeAll(items, defaultSize)[i] == items[i]
    ensures Truthy(defaultSize) ==> forall i :: 0 <= i < |items| ==> TruthyValue(SizeAll(items, defaultSize)[i].size)
  {
  }

  class RecordFormComponent {
    // Configuration attributes
    const objectApiName: Option<string>
    const recordId: Option<string>
    const relatedObjectApiName: Option<string>
    const relatedRecordIdField: Option<string>
    const fieldConfig: Setting<seq<FieldItem>>
    const defaultSize: Json

    var isEditMode: bool

    var relatedFieldList: Option<seq<string>>
    var fieldList: Option<seq<FieldItem>>
    var formObjectApiName: Option<string>
    var formRecordId: Option<string>
    var formRecordTypeId: Option<string>
    var isReady: bool
    /** Initialised to false and never assigned, so labels are filled on every load */
    const labelOk: bool := false
    var message: Option<FormMessage>

    /** Whether the template holds a spinner, and whether it is hidden */
    const hasSpinner: bool
    var spinnerHidden: bool
    /** The `disabled` flags of the form buttons */
    const buttons: array<bool>

    constructor (objectApiName: Option<string>, recordId: Option<string>, relatedObjectApiName: Option<string>,
                 relatedRecordIdField: Option<string>, fieldConfig: Setting<seq<FieldItem>>, defaultSize: Json,
                 isEditMode: bool, hasSpinner: bool, buttonCount: nat)
      ensures this.objectApiName == objectApiName && this.recordId == recordId
      ensures this.relatedObjectApiName == relatedObjectApiName && this.relatedRecordIdField == relatedRecordIdField
      ensures this.fieldConfig == fieldConfig && this.defaultSize == defaultSize && this.isEditMode == isEditMode
      ensures relatedFieldList == None && fieldList == None && formObjectApiName == None
      ensures formRecordId == None && formRecordTypeId == None && !isReady && message == None
      ensures this.hasSpinner == hasSpinner && !spinnerHidden
      ensures fresh(buttons) && buttons.Length == buttonCount
    {
      this.objectApiName, this.recordId := objectApiName, recordId;
      this.relatedObjectApiName, this.relatedRecordIdField := relatedObjectApiName, relatedRecordIdField;
      this.fieldConfig, this.defaultSize, this.isEditMode := fieldConfig, defaultSize, isEditMode;
      relatedFieldList, fieldList, formObjectApiName := None, None, None;
      formRecordId, formRecordTypeId, isReady, message := None, None, false, None;
      this.hasSpinner, spinnerHidden := hasSpinner, false;
      buttons := new bool[buttonCount];
    }

    /**
     * `connectedCallback`: picks the form's object and record, and parses the
     * field list, giving each item without a size the default size. A field
     * list that does not parse leaves the form not ready.
     */
    method ConnectedCallback()
      modifies this`formObjectApiName, this`relatedFieldList, this`formRecordId, this`isReady, this`fieldList
      ensures TruthyString(relatedRecordIdField) ==>
        && formObjectApiName == relatedObjectApiName
        && relatedFieldList == Some([Display(objectApiName) + "." + relatedRecordIdField.value])
        && formRecordId == old(formRecordId)
      ensures !TruthyString(relatedRecordIdField) ==>
        && formObjectApiName == objectApiName && formRecordId == recordId
        && relatedFieldList == old(relatedFieldList)
      ensures fieldConfig.Parsed? ==> fieldList == Some(SizeAll(fieldConfig.value, defaultSize))
      ensures !fieldConfig.Parsed? ==> fieldList == old(fieldList)
      ensures isReady == if !fieldConfig.Parsed? then false
                         else if TruthyString(relatedRecordIdField) then old(isReady)
                         else true
    {
      if TruthyString(relatedRecordIdField) {
        formObjectApiName := relatedObjectApiName;
        relatedFieldList := Some([Display(objectApiName) + "." + relatedRecordIdField.value]);
      } else {
        formObjectApiName := objectApiName;
        formRecordId := recordId;
        isReady := true;
      }
      match fieldConfig
      case Parsed(items) =>
        var sized := items;
        var i := 0;
        while i < |sized|
          invariant 0 <= i <= |sized| == |items|
          invariant forall k :: 0 <= k < i ==> sized[k] == WithSize(items[k], defaultSize)
          invariant forall k :: i <= k < |sized| ==> sized[k] == items[k]
        {
          if !TruthyValue(sized[i].size) {
            sized := sized[i := sized[i].(size := Some(defaultSize))];
          }
          i := i + 1;
        }
        assert sized == SizeAll(items, defaultSize);
        fieldList := Some(sized);
      case _ =>
        isReady := false;
    }

    /**
     * `wiredRecord`: the related record's lookup value becomes the form's
     * record id, and the form is ready once that id is truthy; without data
     * the record id is cleared.
     */
    method WiredRecord(result: WireResult)
      modifies this`formRecordId, this`isReady
      ensures result.WireData? ==> formRecordId == result.fieldValue
      ensures result.WireNoData? ==> formRecordId == None
      ensures isReady == (old(isReady) || (result.WireData? && TruthyString(result.fieldValue)))
    {
      match result
      case WireData(value) =>
        formRecordId := value;
        if TruthyString(value) {
          isReady := true;
        }
      case WireNoData =>
        formRecordId := None;
    }

    /** `objectInfos[formObjectApiName]?.fields` */
    function ObjectFields(objectInfos: map<string, ObjectInfo>): (r: Option<map<string, FieldInfo>>)
      reads this
      ensures r.Some? ==> Display(formObjectApiName) in objectInfos && objectInfos[Display(formObjectApiName)].fields == r
      ensures Display(formObjectApiName) !in objectInfos ==> r.None?
    {
      var key := Display(formObjectApiName);
      if key in objectInfos then objectInfos[key].fields else None
    }

    /**
     * `handleLoad`: hides the spinner, takes the record type from the loaded
     * records when none is known and the form has a record id, and fills
     * labels and help texts. `completed` is false when the handler throws:
     * the field list did not parse, or the object's metadata is missing and
     * an item needs it.
     */
    method HandleLoad(records: map<string, RecordInfo>, objectInfos: map<string, ObjectInfo>) returns (completed: bool)
      modifies this`spinnerHidden, buttons, this`formRecordTypeId, this`fieldList
      ensures hasSpinner ==> spinnerHidden && forall i :: 0 <= i < buttons.Length ==> !buttons[i]
      ensures !hasSpinner ==> spinnerHidden == old(spinnerHidden) && buttons[..] == old(buttons[..])
      ensures formRecordTypeId ==
        if !TruthyString(old(formRecordTypeId)) && TruthyString(formRecordId) then
          (var key := Display(recordId); if key in records then records[key].recordTypeId else None)
        else old(formRecordTypeId)
      ensures old(fieldList).None? ==> !completed && fieldList == old(fieldList)
      ensures old(fieldList).Some? && ObjectFields(objectInfos).Some? ==>
        completed && fieldList == Some(FillAll(old(fieldList).value, ObjectFields(objectInfos).value))
      ensures old(fieldList).Some? && ObjectFields(objectInfos).None? ==>
        && fieldList == old(fieldList)
        && (completed <==> forall i :: 0 <= i < |old(fieldList).value| ==> !NeedsLookup(old(fieldList).value[i]))
    {
      ToggleSpinner(false);
      if !TruthyString(formRecordTypeId) && TruthyString(formRecordId) {
        var key := Display(recordId);
        formRecordTypeId := if key in records then records[key].recordTypeId else None;
      }
      completed := true;
      if !labelOk {
        var objectFields := ObjectFields(objectInfos);
        if fieldList.None? {
          return false;
        }
        ghost var original := fieldList.value;
        var n := |fieldList.value|;
        var i := 0;
        while i < n
          modifies this`fieldList
          invariant fieldList.Some? && |fieldList.value| == |original|
          invariant 0 <= i <= n == |original|
          invariant objectFields.Some? ==> forall k :: 0 <= k < i ==> fieldList.value[k] == Filled(original[k], objectFields.value)
          invariant objectFields.Some? ==> forall k :: i <= k < |original| ==> fieldList.value[k] == original[k]
          invariant objectFields.None? ==> fieldList.value == original && forall k :: 0 <= k < i ==> !NeedsLookup(original[k])
        {
          var item := fieldList.value[i];
          match objectFields {
            case None =>
              if NeedsLookup(item) {
                return false;
              }
            case Some(fields) =>
              fieldList := Some(fieldList.value[i := Filled(item, fields)]);
          }
          i := i + 1;
        }
        assert objectFields.Some? ==> fieldList.value == FillAll(original, objectFields.value);
      }
    }

    /** `handleEdit`: clears the message and enters edit mode */
    method HandleEdit()
      modifies this`message, this`isEditMode, this`spinnerHidden, buttons
      ensures message == None && isEditMode
      ensures hasSpinner ==> spinnerHidden && forall i :: 0 <= i < buttons.Length ==> !buttons[i]
      ensures !hasSpinner ==> spinnerHidden == old(spinnerHidden) && buttons[..] == old(buttons[..])
    {
      message := None;
      isEditMode := true;
      ToggleSpinner(false);
    }

    /** `handleSubmit`: clears the message and shows the spinner while saving */
    method HandleSubmit()
      modifies this`message, this`spinnerHidden, buttons
      ensures message == None
      ensures hasSpinner ==> !spinnerHidden && forall i :: 0 <= i < buttons.Length ==> buttons[i]
      ensures !hasSpinner ==> spinnerHidden == old(spinnerHidden) && buttons[..] == old(buttons[..])
    {
      message := None;
      ToggleSpinner(true);
    }

    /** `handleSuccess`: shows the saved message and leaves edit mode */
    method HandleSuccess()
      modifies this`message, this`isEditMode, this`spinnerHidden, buttons
      ensures message == Some(SavedMessage) && !isEditMode
      ensures hasSpinner ==> spinnerHidden && forall i :: 0 <= i < buttons.Length ==> !buttons[i]
      ensures !hasSpinner ==> spinnerHidden == old(spinnerHidden) && buttons[..] == old(buttons[..])
    {
      ToggleSpinner(false);
      message := Some(SavedMessage);
      isEditMode := false;
    }

    /** `handleError`: shows the failure message and stays in the current mode */
    method HandleError()
      modifies this`message, this`spinnerHidden, buttons
      ensures message == Some(FailedMessage)
      ensures hasSpinner ==> spinnerHidden && forall i :: 0 <= i < buttons.Length ==> !buttons[i]
      ensures !hasSpinner ==> spinnerHidden == old(spinnerHidden) && buttons[..] == old(buttons[..])
    {
      ToggleSpinner(false);
      message := Some(FailedMessage);
    }

    /** `handleCancel`: clears the message and leaves edit mode */
    method HandleCancel()
      modifies this`message, this`isEditMode
      ensures message == None && !isEditMode
    {
      message := None;
      isEditMode := false;
    }

    /**
     * `toggleSpinner`: with a spinner present, shows or hides it and sets
     * every form button's `disabled` flag to `isShown`; without one, nothing
     * changes.
     */
    method ToggleSpinner(isShown: bool)
      modifies this`spinnerHidden, buttons
      ensures hasSpinner ==> spinnerHidden == !isShown && forall i :: 0 <= i < buttons.Length ==> buttons[i] == isShown
      ensures !hasSpinner ==> spinnerHidden == old(spinnerHidden) && buttons[..] == old(buttons[..])
    {
      if hasSpinner {
        spinnerHidden := !isShown;
        var i := 0;
        while i < buttons.Length
          modifies buttons
          invariant 0 <= i <= buttons.Length
          invariant forall k :: 0 <= k < i ==> buttons[k] == isShown
        {
          buttons[i] := isShown;
          i := i + 1;
        }
      }
    }
  }
}
