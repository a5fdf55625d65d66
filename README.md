# DSFR Lightning components: a Dafny model

This project models the decision logic of three Lightning Web Components of
the DSFR component library for Salesforce:

- the **action button** (`dsfrActionButtonCmp`), which turns a JSON action
  descriptor into one `createRecord`, `updateRecord` or `deleteRecord` call
  and then navigates to the record, asks for a record data reload, does
  nothing, or shows an alert popup built from the error;
- the **file upload** (`dsfrFileUploadCmp`), which disables its file input
  while a file is read and uploaded, as a new file linked to records or as a
  new version of a document. Once the read has loaded, every exit of the
  upload re-enables the input;
- the **record form** (`dsfrRecordFormCmp`), which picks the record to show
  (the current one or a related one), defaults field sizes, fills missing
  labels and help texts from object metadata, and switches between read and
  edit mode around a save.

Platform services are replaced by their outcomes: a handler receives how the
record operation or upload procedure settled (success with an optional
record id, or an error record) and returns the requests it sends.
JavaScript truthiness is explicit: `Option` stands for `undefined`/`null`,
`TruthyString` and `TruthyValue` give the falsy cases (`""`, `0`, `false`,
`null`, `undefined`), and `Json` holds parsed configuration values.

Files:

- `JsValues.dfy`: `Option`, `Json`, truthiness, `a || b` on strings, and
  `Setting` for a JSON attribute (falsy, unparsable, parsed).
- `JsStrings.dfy`: `indexOf`, `replace` with a string pattern (including
  ECMAScript's `$$`, `$&`, `` $` ``, `$'` substitutions) and `split(',')[1]`.
- `Alerts.dfy`: error records and the `{alerts, header?, size}` popup
  payload, shared by the action button and `uploadVersion`.
- `ActionButton.dfy`: `handleAction` as a pure function.
- `FileUpload.dfy`: the upload component as a class.
- `RecordForm.dfy`: the record form component as a class.

On these points the model follows the code as written:

- The navigation target takes its object name from `params.apiName`.
- The action button has no technical-error fallback. A failure with neither
  a body message nor a status text gives one alert with an undefined message.
  Only the upload component falls back to `'Erreur technique'`.
- `reload` is passed to the reload notification as it was configured, with
  no conversion to a list of ids.
- With `navigate` set and `params` undefined or null, reading
  `params.apiName` throws inside `.then`. The `.catch` then reports this as
  an error alert.
- `handleLoad` looks the record type up under `recordId`, not under
  `formRecordId`. For a related record the two differ.
- `labelOk` is never set, so labels are filled again on every load event.
  `FillAllIdempotent` shows that doing so changes nothing.
- The success message is built with `replace('{0}', fileName)`. A file name
  holding `$&`, `` $` ``, `$'` or `$$` is therefore not shown as typed:
  `replace` expands these patterns (`SuccessMessageExpandsDollar`).
- `reset()` calls `reset()` on the file input. An `<input>` element has no
  such method, so when the input is rendered the call throws a TypeError to
  the caller, after the message and the error flag have been cleared.

## Model

| member | source | states |
|---|---|---|
| `ActionButton.HandleAction` | force-app/main/extensions/lwc/dsfrActionButtonCmp/dsfrActionButtonCmp.js:50-121 | at most one record operation per click; at most one of navigation, reload or popup; no operation means no effect at all; a recognised type calls its operation once with `params` unchanged |
| `ActionButton.OperationFor` | force-app/main/extensions/lwc/dsfrActionButtonCmp/dsfrActionButtonCmp.js:60-76 | only the strings `create`, `update` and `delete` select an operation |
| `ActionButton.ApiName` | force-app/main/extensions/lwc/dsfrActionButtonCmp/dsfrActionButtonCmp.js:86 | reading `params.apiName` throws iff `params` is undefined or null; a defined value is the object's own `apiName` property |
| `ActionButton.Settle` | force-app/main/extensions/lwc/dsfrActionButtonCmp/dsfrActionButtonCmp.js:78-117 | the continuation makes no further call and at most one of navigation, reload or popup; a rejection gives the error payload; a navigation needs a truthy `navigate` and record id and goes to that record's `view` page; a reload passes `reload` unchanged and only when it is truthy; on success with a falsy `navigate`, a truthy `reload` is always passed on |
| `ActionButton.OperationForNames` | force-app/main/extensions/lwc/dsfrActionButtonCmp/dsfrActionButtonCmp.js:60-76 | `create`, `update`, `delete` select exactly their own operation (both directions); any other or absent type selects none |
| `ActionButton.NoOperationNoEffect` | force-app/main/extensions/lwc/dsfrActionButtonCmp/dsfrActionButtonCmp.js:55-75 | a falsy `buttonAction` or an unsupported type produces no call, navigation, reload or alert |
| `ActionButton.NavigateTakesPrecedence` | force-app/main/extensions/lwc/dsfrActionButtonCmp/dsfrActionButtonCmp.js:80-92 | success with `navigate` truthy and a returned record id gives one navigation `{recordId, params.apiName, 'view'}` and no reload even when `reload` is set |
| `ActionButton.ReloadWithoutNavigation` | force-app/main/extensions/lwc/dsfrActionButtonCmp/dsfrActionButtonCmp.js:78-97 | any success that does not navigate (a falsy `navigate`, a result without record id, or a `deleteRecord` result when `navigate` is falsy): the reload notification receives exactly `reload` when it is truthy, otherwise nothing follows |
| `ActionButton.RejectionShowsAlert` | force-app/main/extensions/lwc/dsfrActionButtonCmp/dsfrActionButtonCmp.js:98-117 | a rejected operation shows exactly the normalised error payload and nothing else |
| `ActionButton.NavigationWithoutParams` | force-app/main/extensions/lwc/dsfrActionButtonCmp/dsfrActionButtonCmp.js:80-108 | navigating with undefined or null `params` throws and ends as one error alert with an undefined message |
| `ActionButton.NavigationWithoutResult` | force-app/main/extensions/lwc/dsfrActionButtonCmp/dsfrActionButtonCmp.js:78-108 | an operation resolving with no result (`deleteRecord`) and a truthy `navigate` fails on `data.recordId` and ends as one error alert with an undefined message, with no navigation or reload |
| `Alerts.FieldAlertsAt` | force-app/main/extensions/lwc/dsfrActionButtonCmp/dsfrActionButtonCmp.js:103-105 | one error alert per field-level error, same count and same order |
| `Alerts.FieldAlerts` | force-app/main/extensions/lwc/dsfrActionButtonCmp/dsfrActionButtonCmp.js:103-105 | one alert per field-level error, each an error alert without a title |
| `Alerts.ErrorAlertConfig` | force-app/main/extensions/lwc/dsfrActionButtonCmp/dsfrActionButtonCmp.js:100-109 | size `small`; error alerts only; with `output.errors`, one alert per error and the body message as header; otherwise a single alert and no header |
| `Alerts.ErrorAlertConfigShape` | force-app/main/extensions/lwc/dsfrActionButtonCmp/dsfrActionButtonCmp.js:100-109 | size is always `small`; every alert is an error; with `output.errors` the header is `body.message` and the alerts follow the errors; otherwise one alert with `body.message \|\| statusText` and no header |
| `Alerts.NormalizeError` | force-app/main/default/lwc/dsfrFileUploadCmp/dsfrFileUploadCmp.js:311-320 | the push loop over `output.errors` builds exactly the normalised payload |
| `JsStrings.IndexOf` | force-app/main/default/lwc/dsfrFileUploadCmp/dsfrFileUploadCmp.js:198 | the result is an occurrence of the pattern and no earlier one exists; none means the pattern occurs nowhere |
| `JsStrings.Expand` | force-app/main/default/lwc/dsfrFileUploadCmp/dsfrFileUploadCmp.js:198 | a replacement text without `$` is inserted as it is; the expansion holds only characters of the replacement, the matched text and the texts before and after the match |
| `JsStrings.ReplaceFirst` | force-app/main/default/lwc/dsfrFileUploadCmp/dsfrFileUploadCmp.js:274 | a pattern that occurs nowhere leaves the text unchanged; otherwise the text before the first occurrence and the text after it are kept |
| `JsStrings.SecondField` | force-app/main/default/lwc/dsfrFileUploadCmp/dsfrFileUploadCmp.js:147 | `split(',')[1]` is undefined exactly when the text has no comma, and never holds a comma |
| `JsStrings.ReplaceAbsent` | force-app/main/default/lwc/dsfrFileUploadCmp/dsfrFileUploadCmp.js:274 | `replace` of a pattern that does not occur returns the text unchanged |
| `JsStrings.ReplaceFirstOccurrence` | force-app/main/default/lwc/dsfrFileUploadCmp/dsfrFileUploadCmp.js:274 | only the first occurrence is replaced, and a replacement text without `$` appears there verbatim |
| `JsStrings.SecondFieldOfDataUrl` | force-app/main/default/lwc/dsfrFileUploadCmp/dsfrFileUploadCmp.js:147 | `split(',')[1]` of a data URL `header,payload` is the payload |
| `JsStrings.SecondFieldWithoutComma` | force-app/main/default/lwc/dsfrFileUploadCmp/dsfrFileUploadCmp.js:147 | without a comma the file content is undefined |
| `FileUpload.TruthyOnlyMembers` | force-app/main/default/lwc/dsfrFileUploadCmp/dsfrFileUploadCmp.js:178 | the filter keeps exactly the truthy ids and never lengthens the list |
| `FileUpload.TruthyOnlyAppend` | force-app/main/default/lwc/dsfrFileUploadCmp/dsfrFileUploadCmp.js:178 | the filter preserves order: it distributes over concatenation |
| `FileUpload.TruthyOnlyAllTruthy` | force-app/main/default/lwc/dsfrFileUploadCmp/dsfrFileUploadCmp.js:178 | a list without falsy ids passes unchanged |
| `FileUpload.TruthyOnly` | force-app/main/default/lwc/dsfrFileUploadCmp/dsfrFileUploadCmp.js:178 | the filter never lengthens the list and keeps only truthy ids |
| `FileUpload.FailureMessage` | force-app/main/default/lwc/dsfrFileUploadCmp/dsfrFileUploadCmp.js:244 | the failure message of lines 244, 255 and 326 is never empty and is the technical-error text, the body message or the status text |
| `FileUpload.SuccessMessage` | force-app/main/default/lwc/dsfrFileUploadCmp/dsfrFileUploadCmp.js:198 | the success label's text before its first `{0}` and after it is kept |
| `FileUpload.FailureMessageFallback` | force-app/main/default/lwc/dsfrFileUploadCmp/dsfrFileUploadCmp.js:244 | the upload failure message is `body.message`, else `statusText`, else `'Erreur technique'`; it is never empty; a script error gives `'Erreur technique'` |
| `FileUpload.SuccessMessageNamesFile` | force-app/main/default/lwc/dsfrFileUploadCmp/dsfrFileUploadCmp.js:198 | a label holding `{0}` shows the file name in its place when the name has no `$` |
| `FileUpload.SuccessMessageWithoutPlaceHolder` | force-app/main/default/lwc/dsfrFileUploadCmp/dsfrFileUploadCmp.js:274 | a label without `{0}` is shown unchanged |
| `FileUpload.SuccessMessageExpandsDollar` | force-app/main/default/lwc/dsfrFileUploadCmp/dsfrFileUploadCmp.js:198 | a file name holding `$&` is not shown verbatim: `replace` expands it to the matched `{0}` |
| `FileUpload.FileUploadComponent.constructor` | force-app/main/default/lwc/dsfrFileUploadCmp/dsfrFileUploadCmp.js:18-48 | the configuration as given; no message, no error, no file; the file input starts disabled exactly when the `disabled` attribute is set |
| `FileUpload.FileUploadComponent.MainClass` | force-app/main/default/lwc/dsfrFileUploadCmp/dsfrFileUploadCmp.js:61-63 | the truthy wrapping class comes first; the class list ends with the upload group classes and is exactly as long as the two together, so it is `(wrappingClass \|\| '') + group`; it ends with the error marker iff `isError` |
| `FileUpload.FileUploadComponent.MessageClass` | force-app/main/default/lwc/dsfrFileUploadCmp/dsfrFileUploadCmp.js:64-66 | `fr-error-text` iff `isError`, else `fr-valid-text` |
| `FileUpload.FileUploadComponent.ConnectedCallback` | force-app/main/default/lwc/dsfrFileUploadCmp/dsfrFileUploadCmp.js:83-84 | falsy `comment` and `accept` take the default labels; truthy ones are kept; nothing else changes |
| `FileUpload.FileUploadComponent.Reset` | force-app/main/default/lwc/dsfrFileUploadCmp/dsfrFileUploadCmp.js:111-118 | message cleared and error flag false, nothing else changes; it completes iff the input is not rendered, since calling `reset()` on a rendered input throws |
| `FileUpload.FileUploadComponent.HandleUpload` | force-app/main/default/lwc/dsfrFileUploadCmp/dsfrFileUploadCmp.js:123-143 | message cleared; without a selected file nothing is read and the input stays enabled; with one the input is disabled and the file name kept |
| `FileUpload.FileUploadComponent.FileLoaded` | force-app/main/default/lwc/dsfrFileUploadCmp/dsfrFileUploadCmp.js:145-159 | the input is enabled again; a truthy `fileId` sends `NewVersion(fileName, split(',')[1], fileId)`, else the new-file request with the record id list; nothing is sent iff a new file's configuration does not parse, which shows `'Erreur technique'`; message, error flag, content and notices on success and on failure, with the `doNotify` split on the version path |
| `FileUpload.FileUploadComponent.LinkedRecordIds` | force-app/main/default/lwc/dsfrFileUploadCmp/dsfrFileUploadCmp.js:171-180 | parse success iff `recordIds` parses; the list is the truthy main id followed by the truthy parsed ids in order; every id in it is truthy |
| `FileUpload.FileUploadComponent.RecordIdList` | force-app/main/default/lwc/dsfrFileUploadCmp/dsfrFileUploadCmp.js:171-180 | every id in the list is truthy; a truthy main id comes first; with no main id and no parsed list the list is empty |
| `FileUpload.FileUploadComponent.ReloadList` | force-app/main/default/lwc/dsfrFileUploadCmp/dsfrFileUploadCmp.js:203-208 | one `{recordId}` per id in order, then the current user last iff `refreshUser` and the user id are truthy |
| `FileUpload.FileUploadComponent.RegisterFile` | force-app/main/default/lwc/dsfrFileUploadCmp/dsfrFileUploadCmp.js:168-258 | the input is enabled on every exit; a parse failure sends nothing and shows `'Erreur technique'`; `meta` is sent iff `contentMeta` is set; on success the content is cleared, the success message shown, the reload sent iff the id list is non-empty; on failure the fallback message and the error flag are set |
| `FileUpload.FileUploadComponent.UploadVersion` | force-app/main/default/lwc/dsfrFileUploadCmp/dsfrFileUploadCmp.js:260-331 | the input is enabled on every exit; on success the content is cleared and the success message shown (with a success payload when `doNotify`); on failure with `doNotify` the normalised payload goes out and the message is left alone, without it the fallback message and error flag are set |
| `RecordForm.WithSize` | force-app/main/extensions/lwc/dsfrRecordFormCmp/dsfrRecordFormCmp.js:100-102 | a truthy size is kept; a falsy one becomes the default size; nothing else in the item changes |
| `RecordForm.Filled` | force-app/main/extensions/lwc/dsfrRecordFormCmp/dsfrRecordFormCmp.js:136-145 | a truthy label or help is never overwritten; a falsy label takes the metadata label; the help changes iff it is falsy, not hidden, and the metadata help text is truthy, and then becomes that text |
| `RecordForm.FillAll` | force-app/main/extensions/lwc/dsfrRecordFormCmp/dsfrRecordFormCmp.js:136-147 | same length; each position is that item filled |
| `RecordForm.SizeAll` | force-app/main/extensions/lwc/dsfrRecordFormCmp/dsfrRecordFormCmp.js:100-103 | same length; each position is that item with its size defaulted |
| `RecordForm.FillAllKeeps` | force-app/main/extensions/lwc/dsfrRecordFormCmp/dsfrRecordFormCmp.js:130-148 | filling keeps length, order and names, every present label and help, and every hidden help |
| `RecordForm.FillAllIdempotent` | force-app/main/extensions/lwc/dsfrRecordFormCmp/dsfrRecordFormCmp.js:130-148 | filling a filled list again from the same metadata changes nothing |
| `RecordForm.SizeAllDefaults` | force-app/main/extensions/lwc/dsfrRecordFormCmp/dsfrRecordFormCmp.js:97-103 | after defaulting every item has a size, truthy sizes are kept, and with a truthy default every size is truthy |
| `RecordForm.NeedsLookupExactly` | force-app/main/extensions/lwc/dsfrRecordFormCmp/dsfrRecordFormCmp.js:138-143 | an item needs its field's metadata exactly when some metadata would change it; one that does not need it is left unchanged by filling |
| `RecordForm.RecordFormComponent.constructor` | force-app/main/extensions/lwc/dsfrRecordFormCmp/dsfrRecordFormCmp.js:12-38 | the configuration as given; nothing selected, not ready, no message |
| `RecordForm.RecordFormComponent.ConnectedCallback` | force-app/main/extensions/lwc/dsfrRecordFormCmp/dsfrRecordFormCmp.js:76-115 | with a related id field: related object, lookup field list `objectApiName.field`, readiness untouched; otherwise the own object and record and ready; the parsed field list with sizes defaulted; a field list that does not parse forces not ready |
| `RecordForm.RecordFormComponent.WiredRecord` | force-app/main/extensions/lwc/dsfrRecordFormCmp/dsfrRecordFormCmp.js:53-74 | data sets the form record id to the lookup value and makes the form ready only when it is truthy; no data clears the record id |
| `RecordForm.RecordFormComponent.ObjectFields` | force-app/main/extensions/lwc/dsfrRecordFormCmp/dsfrRecordFormCmp.js:134 | the field metadata comes from the `objectInfos` entry keyed by the form's object name, and is undefined when there is no such entry |
| `RecordForm.RecordFormComponent.HandleLoad` | force-app/main/extensions/lwc/dsfrRecordFormCmp/dsfrRecordFormCmp.js:121-151 | spinner hidden and buttons enabled; record type set only when unset and the record id truthy; fields filled from the object metadata; without metadata the list is unchanged and the handler throws iff an item needs a lookup |
| `RecordForm.RecordFormComponent.HandleEdit` | force-app/main/extensions/lwc/dsfrRecordFormCmp/dsfrRecordFormCmp.js:153-159 | message cleared, edit mode on, spinner hidden |
| `RecordForm.RecordFormComponent.HandleSubmit` | force-app/main/extensions/lwc/dsfrRecordFormCmp/dsfrRecordFormCmp.js:161-166 | message cleared, spinner shown and buttons disabled, mode unchanged |
| `RecordForm.RecordFormComponent.HandleSuccess` | force-app/main/extensions/lwc/dsfrRecordFormCmp/dsfrRecordFormCmp.js:168-178 | the saved info message, edit mode off, spinner hidden |
| `RecordForm.RecordFormComponent.HandleError` | force-app/main/extensions/lwc/dsfrRecordFormCmp/dsfrRecordFormCmp.js:180-190 | the failure message, edit mode unchanged, spinner hidden |
| `RecordForm.RecordFormComponent.HandleCancel` | force-app/main/extensions/lwc/dsfrRecordFormCmp/dsfrRecordFormCmp.js:192-206 | message cleared, edit mode off |
| `RecordForm.RecordFormComponent.ToggleSpinner` | force-app/main/extensions/lwc/dsfrRecordFormCmp/dsfrRecordFormCmp.js:211-241 | with a spinner, it is hidden iff not shown and every button's `disabled` equals `isShown`; without one nothing changes |

## Left out

- ActionButton.HandleAction: requires `buttonAction` to be valid JSON. For other text `JSON.parse` throws out of the handler, which the model does not follow.
- ActionButton.HandleAction: a descriptor that parses to something other than an object (`null`, a number) is not modelled.
- Platform services are not modelled: record create/update/delete, the Apex upload procedures, `notifyRecordUpdateAvailable`, the message-channel `publish`, navigation, `getRecord`/`getFieldValue`. The model receives their outcomes and returns the requests sent to them.
- Promise sequencing and waiting for the alert popup to close are not modelled. Each handler receives the settled outcome directly.
- Reading the file with `FileReader` and its data URL is browser I/O. Only the extraction of the content with `split(',')[1]` is modelled.
- `JSON.parse` is not modelled. A JSON attribute is falsy, unparsable or already parsed (`Setting`). An unparsable `fieldConfig`, and a missing one (where `JSON.parse(undefined)` throws), both count as not parsed.
- DOM work is not modelled: clicking the input in `doUpload` and the spinner's CSS class. The class is reduced to a hidden flag. In `reset` only whether the input is rendered is modelled.
- A file read that fails or is aborted is not modelled. `handleUpload` installs only `onload`, so after such a read the input stays disabled and no message is shown.
- FileUpload.FileUploadComponent.constructor: the component's markup is not part of this model. The `disabled` attribute is taken as the file input's initial `disabled` flag, the binding the markup is expected to make. The `label` attribute is used only by the markup and is left out.
- Custom label values are not modelled. They are constructor parameters of the upload component.
- `console` logging and the action button's `connectedCallback` are not modelled. That callback only logs.
- Numbers in configuration are integers. Fractional numbers and NaN are not modelled.
- Parsed `fieldConfig` items are values in a sequence, updated element by element. Aliasing between item objects is not modelled.
- Errors thrown inside success callbacks are not modelled, for example when `querySelector` finds no input.
- `error.body.output.errors` is modelled only as an array. A non-array truthy value would make `forEach` throw.
- Configuration flags (`refreshUser`, `doRefresh`, `doNotify`) are modelled by their truthiness.
- The `dsfrBreadcrumbCmp` test file is not part of this model. It asserts only `1 === 1`.
