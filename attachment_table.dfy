/** The attachment table shown on detail pages: permission flags read from an OPTIONS
    request, the row and table actions they unlock, the attachment cell, uploads from
    the drop zone, and which parts of the component render for a given pk. */
module AttachmentTable {
  import opened Wrappers
  import opened Strings

  /** The fields of an attachment row the table reads; an absent file or link is the
      empty string (both are falsy). */
  datatype AttachmentRecord = AttachmentRecord(pk: int, attachment: string, link: string,
                                               comment: string)

  /** The attachment cell: a link to the uploaded file, an external link, or a dash. */
  datatype AttachmentCell = FileLink(file: string) | ExternalLink(url: string) | Dash

  /** The attachment column's renderer: the file wins over the link. */
  function CellOf(record: AttachmentRecord): (cell: AttachmentCell)
    ensures cell.FileLink? <==> record.attachment != ""
    ensures cell.ExternalLink? <==> record.attachment == "" && record.link != ""
    ensures cell == Dash <==> record.attachment == "" && record.link == ""
    ensures cell.FileLink? ==> cell.file == record.attachment
    ensures cell.ExternalLink? ==> cell.url == record.link
  {
    if record.attachment != "" then FileLink(record.attachment)
    else if record.link != "" then ExternalLink(record.link)
    else Dash
  }

  /** The outcome of the OPTIONS request: the keys of `response.data.actions` (None when
      `data` or `actions` is missing), or a failed request. */
  datatype OptionsOutcome = OptionsResponse(actions: Option<set<string>>) | OptionsError

  /** A row action and what its click opens: the edit form for a file or a link
      attachment, or the delete form. */
  datatype RowAction = EditRow(pk: int, attachmentType: string) | DeleteRow(pk: int)

  /** A table-level action: the add form for a file or a link. */
  datatype AddAction = AddAction(title: string, model: string, pk: int, attachmentType: string)

  /** One entry of the multipart upload body. */
  datatype FormEntry = FileEntry(name: string, file: string) | TextEntry(name: string, value: string)

  /** A POST of one file. */
  datatype UploadRequest = UploadRequest(url: string, form: seq<FormEntry>)

  /** A notification shown after an upload. */
  datatype Notice = Notice(title: string, message: string, color: string)

  /** The request `uploadFiles` sends for one file: the file under 'attachment' and the
      pk, as text, under the model name. */
  function UploadFor(url: string, model: string, pk: int, file: string): (r: UploadRequest)
    ensures r.url == url && |r.form| == 2
    ensures r.form[0] == FileEntry("attachment", file)
    ensures r.form[1].TextEntry? && r.form[1].name == model
    ensures r.form[1].value == IntToString(pk)
  {
    UploadRequest(url, [FileEntry("attachment", file), TextEntry(model, IntToString(pk))])
  }

  /** The requests for a list of files: one per file, in order. */
  function UploadsOf(url: string, model: string, pk: int, files: seq<string>)
    : (rs: seq<UploadRequest>)
    ensures |rs| == |files|
    ensures forall i :: 0 <= i < |files| ==> rs[i] == UploadFor(url, model, pk, files[i])
    decreases |files|
  {
    if files == [] then []
    else UploadsOf(url, model, pk, files[..|files| - 1])
         + [UploadFor(url, model, pk, files[|files| - 1])]
  }

  /** The notice shown for one finished upload. */
  function UploadNotice(file: string, succeeded: bool): Notice {
    if succeeded then Notice("File uploaded", "File " + file + " uploaded successfully", "green")
    else Notice("Upload Error", "File could not be uploaded", "red")
  }

  /** The notices for a list of uploads, in file order. */
  function NoticesOf(files: seq<string>, succeeded: seq<bool>): (ns: seq<Notice>)
    requires |succeeded| == |files|
    ensures |ns| == |files|
    ensures forall i :: 0 <= i < |files| ==> ns[i] == UploadNotice(files[i], succeeded[i])
    decreases |files|
  {
    if files == [] then []
    else NoticesOf(files[..|files| - 1], succeeded[..|files| - 1])
         + [UploadNotice(files[|files| - 1], succeeded[|files| - 1])]
  }

  /** How many uploads succeeded. */
  function Successes(succeeded: seq<bool>): (n: nat)
    ensures n <= |succeeded|
    decreases |succeeded|
  {
    if succeeded == [] then 0
    else Successes(succeeded[..|succeeded| - 1]) + (if succeeded[|succeeded| - 1] then 1 else 0)
  }

  /** Every upload refreshes the table exactly when it succeeds: the refresh count is
      the full number of files iff every upload succeeded, and zero iff none did. */
  lemma {:induction false} SuccessesCount(succeeded: seq<bool>)
    ensures Successes(succeeded) == |succeeded| <==> forall i :: 0 <= i < |succeeded| ==> succeeded[i]
    ensures Successes(succeeded) == 0 <==> forall i :: 0 <= i < |succeeded| ==> !succeeded[i]
    decreases |succeeded|
  {
    if succeeded != [] {
      var init := succeeded[..|succeeded| - 1];
      SuccessesCount(init);
      assert forall i :: 0 <= i < |init| ==> init[i] == succeeded[i];
    }
  }

  /** The first child of the component's stack as written: `pk && pk > 0 && <table>`.
      For pk 0 the expression is the number 0, which React renders as the text "0". */
  datatype TableSlot = TableShown(url: string, params: map<string, int>, rowActionsAttached: bool)
                     | ZeroText
                     | NothingShown

  /** The table slot exactly as the source computes it. */
  function TableSlotAsWritten(url: string, model: string, pk: int,
                              allowEdit: bool, allowDelete: bool): (slot: TableSlot)
    ensures slot.TableShown? <==> pk > 0
  {
    if pk == 0 then ZeroText
    else if pk > 0 then TableShown(url, map[model := pk], allowEdit && allowDelete)
    else NothingShown
  }

  /** A pk of 0 leaves a stray "0" in the page instead of rendering nothing. */
  lemma ZeroPkRendersZero(url: string, model: string, allowEdit: bool, allowDelete: bool)
    ensures TableSlotAsWritten(url, model, 0, allowEdit, allowDelete) == ZeroText
  {
  }

  /** The table slot as intended: the table for a valid pk, filtered by {model: pk},
      with row actions only when both edit and delete are allowed; nothing otherwise. */
  function TableSlotOf(url: string, model: string, pk: int,
                       allowEdit: bool, allowDelete: bool): (slot: TableSlot)
    ensures slot != ZeroText
    ensures slot.TableShown? <==> pk > 0
    ensures slot.TableShown? ==> slot.url == url && slot.params == map[model := pk]
    ensures slot.TableShown? ==> (slot.rowActionsAttached <==> allowEdit && allowDelete)
  {
    if pk > 0 then TableShown(url, map[model := pk], allowEdit && allowDelete)
    else NothingShown
  }

  /** The corrected slot differs from the written one only at pk 0. */
  lemma SlotCorrectionOnlyAtZero(url: string, model: string, pk: int,
                                 allowEdit: bool, allowDelete: bool)
    ensures (TableSlotOf(url, model, pk, allowEdit, allowDelete)
             == TableSlotAsWritten(url, model, pk, allowEdit, allowDelete)) <==> pk != 0
  {
  }

  /** The drop zone appears only for a user who may edit, on a valid pk. */
  function DropzoneShown(pk: int, allowEdit: bool): (shown: bool)
    ensures shown ==> pk > 0
    ensures shown <==> allowEdit && TableSlotOf("", "", pk, false, false).TableShown?
  {
    allowEdit && pk > 0
  }

  /** The row actions: an edit action when editing is allowed, then a delete action
      when deleting is allowed. The edit form opens for a file when the row has one,
      and for a link otherwise. */
  function RowActionsFor(allowEdit: bool, allowDelete: bool, record: AttachmentRecord)
    : (actions: seq<RowAction>)
    ensures |actions| == (if allowEdit then 1 else 0) + (if allowDelete then 1 else 0)
    ensures allowEdit ==> actions[0].EditRow? && actions[0].pk == record.pk
    ensures allowEdit ==> (actions[0].attachmentType == "file" <==> record.attachment != "")
    ensures allowEdit ==> (actions[0].attachmentType == "link" <==> record.attachment == "")
    ensures allowDelete ==> actions[|actions| - 1] == DeleteRow(record.pk)
    ensures forall a :: a in actions && a.EditRow? ==> allowEdit
  {
    (if allowEdit then [EditRow(record.pk, if record.attachment != "" then "file" else "link")] else [])
    + (if allowDelete then [DeleteRow(record.pk)] else [])
  }

  /** Extending the processed prefix by one file extends the requests, the notices and
      the success count by that file's contribution. */
  lemma UploadStep(url: string, model: string, pk: int, files: seq<string>,
                   succeeded: seq<bool>, i: nat)
    requires |succeeded| == |files| && i < |files|
    ensures UploadsOf(url, model, pk, files[..i + 1])
            == UploadsOf(url, model, pk, files[..i]) + [UploadFor(url, model, pk, files[i])]
    ensures NoticesOf(files[..i + 1], succeeded[..i + 1])
            == NoticesOf(files[..i], succeeded[..i]) + [UploadNotice(files[i], succeeded[i])]
    ensures Successes(succeeded[..i + 1])
            == Successes(succeeded[..i]) + (if succeeded[i] then 1 else 0)
  {
    assert files[..i + 1][..i] == files[..i];
    assert succeeded[..i + 1][..i] == succeeded[..i];
  }

  /** The component's state: the permission flags, and what the table has been asked
      to do: refreshes, single-row updates, uploads and notices. */
  class AttachmentTableView {
    const url: string
    const model: string
    const pk: int
    var allowEdit: bool
    var allowDelete: bool
    var refreshCount: nat
    var updatedRows: seq<AttachmentRecord>
    var uploads: seq<UploadRequest>
    var notices: seq<Notice>

    /** Both flags start false. */
    constructor (url: string, model: string, pk: int)
      ensures this.url == url && this.model == model && this.pk == pk
      ensures !allowEdit && !allowDelete
      ensures refreshCount == 0 && updatedRows == [] && uploads == [] && notices == []
    {
      this.url := url;
      this.model := model;
      this.pk := pk;
      allowEdit := false;
      allowDelete := false;
      refreshCount := 0;
      updatedRows := [];
      uploads := [];
      notices := [];
    }

    /** The permission effect: POST among the actions allows editing, DELETE allows
        deleting; a missing `actions` counts as none, and a failed request changes
        nothing. */
    method LoadPermissions(outcome: OptionsOutcome)
      modifies this
      ensures outcome == OptionsError ==> allowEdit == old(allowEdit) && allowDelete == old(allowDelete)
      ensures outcome.OptionsResponse? ==>
        var actions := if outcome.actions.Some? then outcome.actions.value else {};
        allowEdit == ("POST" in actions) && allowDelete == ("DELETE" in actions)
      ensures refreshCount == old(refreshCount) && updatedRows == old(updatedRows)
      ensures uploads == old(uploads) && notices == old(notices)
    {
      match outcome {
        case OptionsError =>
        case OptionsResponse(actions) =>
          var keys := if actions.Some? then actions.value else {};
          allowEdit := "POST" in keys;
          allowDelete := "DELETE" in keys;
      }
    }

    /** `rowActions`: the actions `RowActionsFor` gives under the current flags. */
    method RowActions(record: AttachmentRecord) returns (actions: seq<RowAction>)
      ensures actions == RowActionsFor(allowEdit, allowDelete, record)
    {
      actions := [];
      if allowEdit {
        actions := actions + [EditRow(record.pk, if record.attachment != "" then "file" else "link")];
      }
      if allowDelete {
        actions := actions + [DeleteRow(record.pk)];
      }
    }

    /** `tableActions`: adding a file and adding a link, both for this model and pk,
        exactly when editing is allowed. */
    method TableActions() returns (actions: seq<AddAction>)
      ensures allowEdit <==> actions != []
      ensures allowEdit ==> (|actions| == 2
        && actions[0].attachmentType == "file" && actions[1].attachmentType == "link")
      ensures forall a :: a in actions ==> a.model == model && a.pk == pk
    {
      actions := [];
      if allowEdit {
        actions := actions + [AddAction("Add attachment", model, pk, "file")];
        actions := actions + [AddAction("Add external link", model, pk, "link")];
      }
    }

    /** The edit form's callback: only the returned row is updated, with no refresh. */
    method EditSaved(returned: AttachmentRecord)
      modifies this
      ensures updatedRows == old(updatedRows) + [returned]
      ensures refreshCount == old(refreshCount)
      ensures allowEdit == old(allowEdit) && allowDelete == old(allowDelete)
      ensures uploads == old(uploads) && notices == old(notices)
    {
      updatedRows := updatedRows + [returned];
    }

    /** The callback of the delete form and of the add forms: a full refresh. */
    method RefreshTable()
      modifies this
      ensures refreshCount == old(refreshCount) + 1
      ensures updatedRows == old(updatedRows)
      ensures allowEdit == old(allowEdit) && allowDelete == old(allowDelete)
      ensures uploads == old(uploads) && notices == old(notices)
    {
      refreshCount := refreshCount + 1;
    }

    /** `uploadFiles`: one POST per dropped file. Each success shows a notice and
        refreshes the table; each failure shows an error notice. Whether each upload
        succeeds is given by `succeeded`. */
    method UploadFiles(files: seq<string>, succeeded: seq<bool>)
      requires |succeeded| == |files|
      modifies this
      ensures uploads == old(uploads) + UploadsOf(url, model, pk, files)
      ensures notices == old(notices) + NoticesOf(files, succeeded)
      ensures refreshCount == old(refreshCount) + Successes(succeeded)
      ensures updatedRows == old(updatedRows)
      ensures allowEdit == old(allowEdit) && allowDelete == old(allowDelete)
    {
      var sent: seq<UploadRequest> := [];
      var shown: seq<Notice> := [];
      var refreshes: nat := 0;
      for i := 0 to |files|
        invariant sent == UploadsOf(url, model, pk, files[..i])
        invariant shown == NoticesOf(files[..i], succeeded[..i])
        invariant refreshes == Successes(succeeded[..i])
        invariant uploads == old(uploads) && notices == old(notices)
        invariant refreshCount == old(refreshCount) && updatedRows == old(updatedRows)
        invariant allowEdit == old(allowEdit) && allowDelete == old(allowDelete)
      {
        UploadStep(url, model, pk, files, succeeded, i);
        sent := sent + [UploadFor(url, model, pk, files[i])];
        if succeeded[i] {
          shown := shown + [UploadNotice(files[i], true)];
          refreshes := refreshes + 1;
        } else {
          shown := shown + [UploadNotice(files[i], false)];
        }
      }
      assert files[..|files|] == files;
      assert succeeded[..|succeeded|] == succeeded;
      assert sent == UploadsOf(url, model, pk, files);
      assert shown == NoticesOf(files, succeeded);
      uploads := uploads + sent;
      notices := notices + shown;
      refreshCount := refreshCount + refreshes;
    }
  }

  /** The edit action offered for a row opens the form for the same kind of attachment
      that the row's cell links to: a file exactly when the cell shows a file link,
      and a link otherwise. */
  lemma EditTypeMatchesCell(allowDelete: bool, record: AttachmentRecord)
    ensures RowActionsFor(true, allowDelete, record)[0].EditRow?
    ensures RowActionsFor(true, allowDelete, record)[0].attachmentType == "file" <==> CellOf(record).FileLink?
    ensures RowActionsFor(true, allowDelete, record)[0].attachmentType == "link" <==> !CellOf(record).FileLink?
  {
  }
}
