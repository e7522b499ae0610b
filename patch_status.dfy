/**
 * The status of a YANG Patch request (section 2.3 of RFC 8072), as handed to the response
 * writers, and the report it stands for once the precedence between its fields is applied.
 */
module PatchStatus {
  import opened Wrappers
  import opened Errors

  /** The outcome of one edit of the patch. */
  datatype PatchStatusEntity = PatchStatusEntity(
    editId: string,
    isOk: bool,
    editErrors: Option<seq<RestconfError>>)

  /** The outcome of a whole patch: success, global errors, or per-edit results. */
  datatype PatchStatusContext = PatchStatusContext(
    patchId: string,
    editCollection: seq<PatchStatusEntity>,
    ok: bool,
    globalErrors: Option<seq<RestconfError>>)

  /** What a response reports about one edit. */
  datatype EditReport = EditErrors(errors: seq<RestconfError>) | EditOk | EditNoStatus

  datatype EditView = EditView(editId: string, report: EditReport)

  /** What a response reports about the whole patch: exactly one of the three outcomes. */
  datatype StatusReport =
    | GlobalOk
    | GlobalErrors(errors: seq<RestconfError>)
    | EditStatus(edits: seq<EditView>)

  datatype StatusView = StatusView(patchId: string, report: StatusReport)

  /** Errors of an edit take precedence over its success flag; with neither, nothing is reported. */
  function EditViewOf(e: PatchStatusEntity): (v: EditView)
    ensures v.editId == e.editId
    ensures v.report.EditErrors? <==> e.editErrors.Some?
    ensures v.report.EditErrors? ==> v.report.errors == e.editErrors.value
    ensures v.report.EditOk? <==> e.editErrors.None? && e.isOk
  {
    EditView(e.editId,
      if e.editErrors.Some? then EditErrors(e.editErrors.value)
      else if e.isOk then EditOk
      else EditNoStatus)
  }

  function EditViews(edits: seq<PatchStatusEntity>): (vs: seq<EditView>)
    ensures |vs| == |edits|
    ensures forall i | 0 <= i < |edits| :: vs[i] == EditViewOf(edits[i])
  {
    if edits == [] then [] else [EditViewOf(edits[0])] + EditViews(edits[1..])
  }

  /**
   * The report a patch status stands for: success wins over everything, then global errors,
   * and only otherwise the edits, one per entry and in order.
   */
  function ViewOf(b: PatchStatusContext): (v: StatusView)
    ensures v.patchId == b.patchId
    ensures v.report.GlobalOk? <==> b.ok
    ensures v.report.GlobalErrors? <==> !b.ok && b.globalErrors.Some?
    ensures v.report.GlobalErrors? ==> v.report.errors == b.globalErrors.value
    ensures v.report.EditStatus? <==> !b.ok && b.globalErrors.None?
    ensures v.report.EditStatus? ==> v.report.edits == EditViews(b.editCollection)
  {
    StatusView(b.patchId,
      if b.ok then GlobalOk
      else if b.globalErrors.Some? then GlobalErrors(b.globalErrors.value)
      else EditStatus(EditViews(b.editCollection)))
  }
}
