/**
 * The file upload component: the user picks a file, the component disables
 * its file input, reads the file and uploads it either as a new file linked
 * to records or as a new version of an existing document. Once the read
 * has loaded, it shows a success or error message and re-enables the input.
 *
 * The upload procedures, the reload notification, the refresh message and
 * the `complete` event are not modelled: each upload method receives the
 * procedure's outcome as a parameter and returns the request it sends and
 * the notifications it issues.
 */
module FileUpload {
  import opened JsValues
  import opened JsStrings
  import opened Alerts

  const TechnicalError := "Erreur technique"
  const DoneTitle := "Opération effectuée"
  const PlaceHolder := "{0}"
  const GroupClass := " fr-upload-group"
  const ErrorGroupClass := " fr-upload-group fr-input-group--error"
  const ErrorMarker := " fr-input-group--error"
  const ErrorTextClass := "fr-error-text"
  const ValidTextClass := "fr-valid-text"

  /** One `{recordId}` entry of a record data reload notification */
  datatype RecordRef = RecordRef(recordId: Json)

  /** The data sent to one of the two upload procedures */
  datatype UploadRequest =
    | NewFile(name: Option<string>, content: Option<string>, recordIds: seq<Json>, sharing: string, meta: Option<Json>)
    | NewVersion(name: Option<string>, content: Option<string>, documentId: Option<string>)

  /** How the upload procedure settles */
  datatype UploadOutcome = Uploaded | UploadRejected(error: PlatformError)

  /**
   * The notifications issued once an upload settles: a record data reload,
   * a published page refresh, a `complete` event carrying an alert payload.
   */
  datatype Notices = Notices(reload: Option<seq<RecordRef>>, refresh: bool, complete: Option<AlertConfig>)

  const NoNotices := Notices(None, false, None)

  /**
   * The success label with its first `{0}` replaced by the file name; the
   * label's text around that `{0}` is kept.
   */
  function SuccessMessage(template: string, fileName: Option<string>): (r: string)
    ensures IndexOf(template, PlaceHolder).Some? ==>
      var i := IndexOf(template, PlaceHolder).value;
      i <= |r| && r[..i] == template[..i] && EndsWith(r, template[i + |PlaceHolder|..])
  {
    ReplaceFirst(template, PlaceHolder, Display(fileName))
  }

  /** `error.body?.message || error.statusText || 'Erreur technique'` */
  function FailureMessage(e: PlatformError): (r: string)
    ensures r != ""
    ensures r == TechnicalError || Some(r) == BodyMessage(e) || Some(r) == e.statusText
  {
    var m := OrElse(BodyMessage(e), e.statusText);
    if TruthyString(m) then m.value else TechnicalError
  }

  /** `items.filter((item) => item)` */
  function TruthyOnly(items: seq<Json>): (r: seq<Json>)
    ensures |r| <= |items|
    ensures forall x :: x in r ==> Truthy(x)
  {
    if items == [] then []
    else (if Truthy(items[0]) then [items[0]] else []) + TruthyOnly(items[1..])
  }

  /** The filter keeps exactly the truthy items */
  lemma {:induction false} TruthyOnlyMembers(items: seq<Json>)
    ensures |TruthyOnly(items)| <= |items|
    ensures forall x :: x in TruthyOnly(items) <==> x in items && Truthy(x)
  {
    if items != [] {
      TruthyOnlyMembers(items[1..]);
      assert items == [items[0]] + items[1..];
    }
  }

  /** The filter preserves order: it distributes over concatenation */
  lemma {:induction false} TruthyOnlyAppend(xs: seq<Json>, ys: seq<Json>)
    ensures TruthyOnly(xs + ys) == TruthyOnly(xs) + TruthyOnly(ys)
  {
    if xs == [] {
      assert xs + ys == ys;
    } else {
      assert (xs + ys)[1..] == xs[1..] + ys;
      TruthyOnlyAppend(xs[1..], ys);
    }
  }

  /** A list with no falsy item passes the filter unchanged */
  lemma {:induction false} TruthyOnlyAllTruthy(items: seq<Json>)
    requires forall i :: 0 <= i < |items| ==> Truthy(items[i])
    ensures TruthyOnly(items) == items
  {
    if items != [] {
      TruthyOnlyAllTruthy(items[1..]);
    }
  }

  /**
   * The failure message is never empty: the body's message if truthy, else
   * the status text if truthy, else the technical-error text. It is the
   * single alert message of the popup payload with the technical-error
   * fallback added.
   */
  lemma FailureMessageFallback(e: PlatformError)
    ensures FailureMessage(e) != ""
    ensures TruthyString(BodyMessage(e)) ==> FailureMessage(e) == BodyMessage(e).value
    ensures !TruthyString(BodyMessage(e)) && TruthyString(e.statusText) ==> FailureMessage(e) == e.statusText.value
    ensures !TruthyString(BodyMessage(e)) && !TruthyString(e.statusText) ==> FailureMessage(e) == TechnicalError
    ensures FieldErrors(e).None? ==>
      var shown := ErrorAlertConfig(e).alerts[0].message;
      FailureMessage(e) == if TruthyString(shown) then shown.value else TechnicalError
    ensures FailureMessage(ScriptError) == TechnicalError
  {
  }

  /**
   * With a label holding `{0}` once, and a file name without `$`, the
   * success message is the label with the name in place of `{0}`.
   */
  lemma SuccessMessageNamesFile(before: string, after: string, name: string)
    requires '$' !in name
    requires forall j :: !OccursAt(before + "{0", PlaceHolder, j)
    ensures SuccessMessage(before + PlaceHolder + after, Some(name)) == before + name + after
  {
    var s := before + PlaceHolder + after;
    assert OccursAt(s, PlaceHolder, |before|) by { assert s[|before|..|before| + 3] == PlaceHolder; }
    forall j | 0 <= j < |before|
      ensures !OccursAt(s, PlaceHolder, j)
    {
      assert !OccursAt(before + "{0", PlaceHolder, j);
      assert s[j..j + 3] == (before + "{0")[j..j + 3];
    }
    ReplaceFirstOccurrence(s, PlaceHolder, name, |before|);
    assert s[..|before|] == before;
    assert s[|before| + 3..] == after;
  }

  /** A label without `{0}` is shown unchanged */
  lemma SuccessMessageWithoutPlaceHolder(template: string, fileName: Option<string>)
    requires forall j :: !OccursAt(template, PlaceHolder, j)
    ensures SuccessMessage(template, fileName) == template
  {
  }

  /** `$&` in a file name is expanded by `replace`: it stands for the matched `{0}` */
  lemma SuccessMessageExpandsDollar()
    ensures SuccessMessage("{0} ok", Some("a$&b")) == "a{0}b ok"
  {
    var s := "{0} ok";
    assert OccursAt(s, PlaceHolder, 0);
    assert IndexOf(s, PlaceHolder) == Some(0);
    assert Expand("a$&b", PlaceHolder, "", " ok") == "a{0}b" by {
      assert Expand("b", PlaceHolder, "", " ok") == "b";
      assert "a$&b"[1..][2..] == "b";
      assert Expand("$&b", PlaceHolder, "", " ok") == "{0}b";
      assert "a$&b"[1..] == "$&b";
    }
  }

  class FileUploadComponent {
    // Configuration attributes
    const wrappingClass: Option<string>
    /** The `disabled` attribute, bound to the file input's `disabled` flag when it is rendered */
    const disabled: bool
    const contentMeta: Setting<Json>
    const shareMode: string
    const refreshUser: bool
    const recordId: Option<string>
    const recordIds: Setting<seq<Json>>
    const fileId: Option<string>
    const doRefresh: bool
    const doNotify: bool

    /** The running user's id and the success, comment and file-types labels */
    const currentUserId: Option<string>
    const successLabel: string
    const commentLabel: string
    const typesLabel: string

    var comment: Option<string>
    var accept: Option<string>

    var message: Option<string>
    var isError: bool
    var fileName: Option<string>
    var fileContent: Option<string>

    /** The `disabled` flag of the file input element */
    var inputDisabled: bool

    constructor (wrappingClass: Option<string>, disabled: bool, comment: Option<string>, accept: Option<string>,
                 contentMeta: Setting<Json>, shareMode: string, refreshUser: bool,
                 recordId: Option<string>, recordIds: Setting<seq<Json>>, fileId: Option<string>,
                 doRefresh: bool, doNotify: bool, currentUserId: Option<string>,
                 successLabel: string, commentLabel: string, typesLabel: string)
      ensures this.wrappingClass == wrappingClass && this.disabled == disabled && this.comment == comment && this.accept == accept
      ensures this.contentMeta == contentMeta && this.shareMode == shareMode && this.refreshUser == refreshUser
      ensures this.recordId == recordId && this.recordIds == recordIds && this.fileId == fileId
      ensures this.doRefresh == doRefresh && this.doNotify == doNotify && this.currentUserId == currentUserId
      ensures this.successLabel == successLabel && this.commentLabel == commentLabel && this.typesLabel == typesLabel
      ensures message == None && !isError && fileName == None && fileContent == None
      ensures inputDisabled == disabled
    {
      this.wrappingClass, this.disabled := wrappingClass, disabled;
      this.comment, this.accept := comment, accept;
      this.contentMeta, this.shareMode, this.refreshUser := contentMeta, shareMode, refreshUser;
      this.recordId, this.recordIds, this.fileId := recordId, recordIds, fileId;
      this.doRefresh, this.doNotify, this.currentUserId := doRefresh, doNotify, currentUserId;
      this.successLabel, this.commentLabel, this.typesLabel := successLabel, commentLabel, typesLabel;
      message, isError, fileName, fileContent := None, false, None, None;
      inputDisabled := disabled;
    }

    /** The `mainClass` getter: the wrapping class followed by the upload group classes */
    function MainClass(): (r: string)
      reads this
      ensures |r| == (if TruthyString(wrappingClass) then |wrappingClass.value| else 0)
                     + (if isError then |ErrorGroupClass| else |GroupClass|)
      ensures TruthyString(wrappingClass) ==> |r| > |wrappingClass.value| && r[..|wrappingClass.value|] == wrappingClass.value
      ensures EndsWith(r, if isError then ErrorGroupClass else GroupClass)
      ensures isError <==> EndsWith(r, ErrorMarker)
    {
      var prefix := if TruthyString(wrappingClass) then wrappingClass.value else "";
      var group := if isError then ErrorGroupClass else GroupClass;
      EndsWithAfter(prefix, group, group);
      if isError then
        EndsWithAfter(prefix, ErrorGroupClass, ErrorMarker);
        prefix + group
      else
        EndsWithOtherLast(prefix, GroupClass, ErrorMarker);
        prefix + group
    }

    /** The `messageClass` getter */
    function MessageClass(): (r: string)
      reads this
      ensures r == ErrorTextClass || r == ValidTextClass
      ensures r == ErrorTextClass <==> isError
    {
      if isError then ErrorTextClass else ValidTextClass
    }

    /** The record id list sent with a new file: the main id first, then the truthy parsed ids */
    function RecordIdList(): (r: seq<Json>)
      ensures forall x :: x in r ==> Truthy(x)
      ensures TruthyString(recordId) ==> |r| > 0 && r[0] == JStr(recordId.value)
      ensures !TruthyString(recordId) && !recordIds.Parsed? ==> r == []
    {
      (if TruthyString(recordId) then [JStr(recordId.value)] else [])
      + (if recordIds.Parsed? then TruthyOnly(recordIds.value) else [])
    }

    /** The current user's record is reloaded too */
    predicate RefreshesUser() {
      refreshUser && TruthyString(currentUserId)
    }

    /** `list` is the reload list for `ids`: one entry per id in order, then the user when asked for */
    predicate ReloadsFor(list: seq<RecordRef>, ids: seq<Json>) {
      && |list| == |ids| + (if RefreshesUser() then 1 else 0)
      && (forall k :: 0 <= k < |ids| ==> list[k] == RecordRef(ids[k]))
      && (RefreshesUser() ==> list[|ids|] == RecordRef(JStr(currentUserId.value)))
    }

    /** `connectedCallback`: falsy `comment` and `accept` take the default labels */
    method ConnectedCallback()
      modifies this`comment, this`accept
      ensures comment == if TruthyString(old(comment)) then old(comment) else Some(commentLabel)
      ensures accept == if TruthyString(old(accept)) then old(accept) else Some(typesLabel)
    {
      comment := OrElse(comment, Some(commentLabel));
      accept := OrElse(accept, Some(typesLabel));
    }

    /**
     * `reset`: clears the message and the error flag, then calls `reset()`
     * on the rendered file input. An `<input>` element has no `reset` method,
     * so when the input is rendered that call throws a TypeError to the
     * caller; `completed` is false then.
     */
    method Reset(inputRendered: bool) returns (completed: bool)
      modifies this`message, this`isError
      ensures message == None && !isError
      ensures completed <==> !inputRendered
    {
      message := None;
      isError := false;
      completed := !inputRendered;
    }

    /**
     * `handleUpload` up to the start of the file read: with no selected file
     * the input stays enabled and nothing is read; otherwise the input is
     * disabled and the file name recorded.
     */
    method HandleUpload(selected: Option<string>) returns (reading: bool)
      modifies this`message, this`inputDisabled, this`fileName
      ensures message == None
      ensures reading <==> selected.Some?
      ensures inputDisabled == reading
      ensures fileName == if reading then selected else old(fileName)
    {
      message := None;
      if selected.None? {
        inputDisabled := false;
        return false;
      }
      inputDisabled := true;
      fileName := selected;
      reading := true;
    }

    /**
     * The file reader's `onload`: keeps the data URL's payload and uploads it,
     * as a new version when `fileId` is set, else as a new file. The input is
     * enabled again whatever the outcome.
     */
    method FileLoaded(dataUrl: string, outcome: UploadOutcome) returns (request: Option<UploadRequest>, notices: Notices)
      modifies this`fileContent, this`message, this`isError, this`inputDisabled
      ensures !inputDisabled
      ensures TruthyString(fileId) ==> request == Some(NewVersion(fileName, SecondField(dataUrl), fileId))
      ensures request.None? <==> !TruthyString(fileId) && (recordIds.Unparsable? || contentMeta.Unparsable?)
      ensures !TruthyString(fileId) && request.Some? ==>
        request.value == NewFile(fileName, SecondField(dataUrl), RecordIdList(), shareMode,
                                 if contentMeta.Parsed? then Some(contentMeta.value) else None)
      ensures request.None? ==>
        && message == Some(TechnicalError) && isError
        && fileContent == SecondField(dataUrl) && notices == NoNotices
      ensures request.Some? && outcome.Uploaded? ==>
        && fileContent == None && message == Some(SuccessMessage(successLabel, fileName)) && !isError
        && notices.refresh == doRefresh
      ensures !TruthyString(fileId) && request.Some? && outcome.Uploaded? ==>
        && notices.complete == None
        && (notices.reload.Some? <==> |RecordIdList()| > 0)
        && (notices.reload.Some? ==> ReloadsFor(notices.reload.value, RecordIdList()))
      ensures TruthyString(fileId) && outcome.Uploaded? ==>
        && notices.reload == None
        && notices.complete == (if doNotify then Some(AlertConfig([Alert(Success, Some(DoneTitle), message)], None, SmallSize)) else None)
      ensures request.Some? && outcome.UploadRejected? ==>
        fileContent == SecondField(dataUrl) && !notices.refresh && notices.reload == None
      ensures request.Some? && outcome.UploadRejected? && !(TruthyString(fileId) && doNotify) ==>
        && message == Some(FailureMessage(outcome.error)) && isError && notices.complete == None
      ensures TruthyString(fileId) && doNotify && outcome.UploadRejected? ==>
        && notices.complete == Some(ErrorAlertConfig(outcome.error))
        && message == old(message) && isError == old(isError)
    {
      fileContent := SecondField(dataUrl);
      if TruthyString(fileId) {
        var sent;
        sent, notices := UploadVersion(outcome);
        request := Some(sent);
      } else {
        request, notices := RegisterFile(outcome);
      }
    }

    /** The `recordIds` array built by `registerFile` with `push` */
    method LinkedRecordIds() returns (ids: seq<Json>, parsed: bool)
      ensures parsed <==> !recordIds.Unparsable?
      ensures parsed ==> ids == RecordIdList()
      ensures forall x :: x in ids ==> Truthy(x)
    {
      ids := [];
      parsed := true;
      if TruthyString(recordId) {
        ids := ids + [JStr(recordId.value)];
      }
      match recordIds
      case Unset =>
      case Unparsable =>
        parsed := false;
      case Parsed(items) =>
        TruthyOnlyMembers(items);
        ids := ids + TruthyOnly(items);
    }

    /** The `recordIdList` built by `registerFile` with `forEach` and `push` */
    method ReloadList(ids: seq<Json>) returns (list: seq<RecordRef>)
      ensures ReloadsFor(list, ids)
    {
      list := [];
      var i := 0;
      while i < |ids|
        invariant 0 <= i <= |ids|
        invariant |list| == i
        invariant forall k :: 0 <= k < i ==> list[k] == RecordRef(ids[k])
      {
        list := list + [RecordRef(ids[i])];
        i := i + 1;
      }
      if RefreshesUser() {
        list := list + [RecordRef(JStr(currentUserId.value))];
      }
    }

    /**
     * `registerFile`: upload a new file linked to the record id list. A
     * configuration that does not parse fails before the upload; every exit
     * enables the input again.
     */
    method RegisterFile(outcome: UploadOutcome) returns (request: Option<UploadRequest>, notices: Notices)
      modifies this`fileContent, this`message, this`isError, this`inputDisabled
      ensures !inputDisabled
      ensures request.None? <==> recordIds.Unparsable? || contentMeta.Unparsable?
      ensures request.Some? ==> request.value == NewFile(fileName, old(fileContent), RecordIdList(), shareMode,
                                                         if contentMeta.Parsed? then Some(contentMeta.value) else None)
      ensures request.None? ==> message == Some(TechnicalError) && isError
                                && fileContent == old(fileContent) && notices == NoNotices
      ensures request.Some? && outcome.Uploaded? ==>
        && fileContent == None && message == Some(SuccessMessage(successLabel, fileName)) && !isError
        && (notices.reload.Some? <==> |RecordIdList()| > 0)
        && (notices.reload.Some? ==> ReloadsFor(notices.reload.value, RecordIdList()))
        && notices.refresh == doRefresh && notices.complete == None
      ensures request.Some? && outcome.UploadRejected? ==>
        && fileContent == old(fileContent) && message == Some(FailureMessage(outcome.error)) && isError
        && notices == NoNotices
    {
      var ids, parsed := LinkedRecordIds();
      if !parsed || contentMeta.Unparsable? {
        inputDisabled := false;
        message := Some(FailureMessage(ScriptError));
        isError := true;
        request, notices := None, NoNotices;
        return;
      }
      var meta := if contentMeta.Parsed? then Some(contentMeta.value) else None;
      request := Some(NewFile(fileName, fileContent, ids, shareMode, meta));
      match outcome
      case Uploaded =>
        fileContent := None;
        message := Some(SuccessMessage(successLabel, fileName));
        isError := false;
        var reload := None;
        if |ids| > 0 {
          var list := ReloadList(ids);
          reload := Some(list);
        }
        notices := Notices(reload, doRefresh, None);
        inputDisabled := false;
      case UploadRejected(error) =>
        inputDisabled := false;
        message := Some(FailureMessage(error));
        isError := true;
        notices := NoNotices;
    }

    /**
     * `uploadVersion`: upload a new version of document `fileId`. With
     * `doNotify` the outcome goes out as a `complete` event; a failure then
     * leaves the message alone. The input is enabled again on every exit.
     */
    method UploadVersion(outcome: UploadOutcome) returns (request: UploadRequest, notices: Notices)
      modifies this`fileContent, this`message, this`isError, this`inputDisabled
      ensures !inputDisabled
      ensures request == NewVersion(fileName, old(fileContent), fileId)
      ensures notices.reload == None
      ensures outcome.Uploaded? ==>
        && fileContent == None && message == Some(SuccessMessage(successLabel, fileName)) && !isError
        && notices.refresh == doRefresh
        && notices.complete == (if doNotify then Some(AlertConfig([Alert(Success, Some(DoneTitle), message)], None, SmallSize)) else None)
      ensures outcome.UploadRejected? ==> fileContent == old(fileContent) && !notices.refresh
      ensures outcome.UploadRejected? && doNotify ==>
        && notices.complete == Some(ErrorAlertConfig(outcome.error))
        && message == old(message) && isError == old(isError)
      ensures outcome.UploadRejected? && !doNotify ==>
        && notices.complete == None
        && message == Some(FailureMessage(outcome.error)) && isError
    {
      request := NewVersion(fileName, fileContent, fileId);
      match outcome
      case Uploaded =>
        fileContent := None;
        message := Some(SuccessMessage(successLabel, fileName));
        isError := false;
        inputDisabled := false;
        var complete := None;
        if doNotify {
          complete := Some(AlertConfig([Alert(Success, Some(DoneTitle), message)], None, SmallSize));
        }
        notices := Notices(None, doRefresh, complete);
      case UploadRejected(error) =>
        inputDisabled := false;
        if doNotify {
          var config := NormalizeError(error);
          notices := Notices(None, false, Some(config));
        } else {
          message := Some(FailureMessage(error));
          isError := true;
          notices := NoNotices;
        }
    }
  }
}
