/**
 * The JSON form of the `yang-patch-status` response (section 2.3 of RFC 8072, encoded as in
 * RFC 7951), written as a sequence of calls on a streaming JSON writer.
 */
module JsonPatchStatusBodyWriter {
  import opened Wrappers
  import opened Yang
  import opened Errors
  import opened EventStreams
  import opened PatchStatus

  /** The member names of a `yang-patch-status` document. */
  datatype MemberName =
    | YangPatchStatusMember | PatchIdMember | OkMember
    | ErrorsMember | ErrorMember | ErrorTypeMember | ErrorTagMember | ErrorPathMember
    | ErrorMessageMember | ErrorInfoMember
    | EditStatusMember | EditMember | EditIdMember
  {
    /** The name written for the member; only the top-level one is qualified by its module. */
    function Text(): string {
      match this
      case YangPatchStatusMember => "ietf-yang-patch:yang-patch-status"
      case PatchIdMember => "patch-id"
      case OkMember => "ok"
      case ErrorsMember => "errors"
      case ErrorMember => "error"
      case ErrorTypeMember => "error-type"
      case ErrorTagMember => "error-tag"
      case ErrorPathMember => "error-path"
      case ErrorMessageMember => "error-message"
      case ErrorInfoMember => "error-info"
      case EditStatusMember => "edit-status"
      case EditMember => "edit"
      case EditIdMember => "edit-id"
    }
  }

  /** Distinct members are written with distinct names, so a reader can tell them apart. */
  lemma MemberNamesDistinct(a: MemberName, b: MemberName)
    requires a.Text() == b.Text()
    ensures a == b
  {
  }

  /** One call on a JSON writer. */
  datatype JsonEvent =
    | ObjectStart
    | ObjectEnd
    | ArrayStart
    | ArrayEnd
    | Member(name: MemberName)
    | StringValue(text: string)
    | Null
      /** What the instance-identifier codec writes for a path; its text is not modelled. */
    | InstanceIdentifierValue(path: InstanceIdentifier)

  /** The JSON writer the body writer drives: it records every call, in order. */
  class JsonWriter {
    var events: seq<JsonEvent>

    constructor ()
      ensures events == []
    {
      events := [];
    }

    method BeginObject()
      modifies this
      ensures events == old(events) + [ObjectStart]
    {
      events := events + [ObjectStart];
    }

    method EndObject()
      modifies this
      ensures events == old(events) + [ObjectEnd]
    {
      events := events + [ObjectEnd];
    }

    method BeginArray()
      modifies this
      ensures events == old(events) + [ArrayStart]
    {
      events := events + [ArrayStart];
    }

    method EndArray()
      modifies this
      ensures events == old(events) + [ArrayEnd]
    {
      events := events + [ArrayEnd];
    }

    method Name(name: MemberName)
      modifies this
      ensures events == old(events) + [Member(name)]
    {
      events := events + [Member(name)];
    }

    method Value(text: string)
      modifies this
      ensures events == old(events) + [StringValue(text)]
    {
      events := events + [StringValue(text)];
    }

    method NullValue()
      modifies this
      ensures events == old(events) + [Null]
    {
      events := events + [Null];
    }
  }

  /** The instance-identifier codec writing a path as the value of the current member. */
  method WriteInstanceIdentifier(writer: JsonWriter, path: InstanceIdentifier)
    modifies writer
    ensures writer.events == old(writer.events) + [InstanceIdentifierValue(path)]
  {
    writer.events := writer.events + [InstanceIdentifierValue(path)];
  }

  // ---------------------------------------------------------------------------------------------
  // The document, as a function of the patch status

  function StringMember(name: MemberName, text: string): seq<JsonEvent> {
    [Member(name), StringValue(text)]
  }

  function OptionalStringMember(name: MemberName, text: Option<string>): seq<JsonEvent> {
    if text.Some? then StringMember(name, text.value) else []
  }

  function ErrorPathValue(path: Option<InstanceIdentifier>): seq<JsonEvent> {
    if path.Some? then [Member(ErrorPathMember), InstanceIdentifierValue(path.value)] else []
  }

  /** The members of one error object, between its braces. */
  function ErrorFields(e: RestconfError): seq<JsonEvent> {
    StringMember(ErrorTypeMember, e.errorType.ElementBody())
      + StringMember(ErrorTagMember, e.errorTag.elementBody)
      + ErrorPathValue(e.errorPath)
      + OptionalStringMember(ErrorMessageMember, e.errorMessage)
      + OptionalStringMember(ErrorInfoMember, e.errorInfo)
  }

  function ErrorObject(e: RestconfError): seq<JsonEvent> {
    [ObjectStart] + ErrorFields(e) + [ObjectEnd]
  }

  function ErrorsOpening(): seq<JsonEvent> {
    [Member(ErrorsMember), ObjectStart, Member(ErrorMember), ArrayStart]
  }

  /** `"errors": {"error": [ ... ]}`, one object per error, in order. */
  function ErrorsValue(errors: seq<RestconfError>): seq<JsonEvent> {
    ErrorsOpening() + Concat(ErrorObject, errors) + [ArrayEnd, ObjectEnd]
  }

  /** `"ok": [null]`, the JSON encoding of an empty leaf. */
  function Success(): seq<JsonEvent> {
    [Member(OkMember), ArrayStart, Null, ArrayEnd]
  }

  /** What follows `edit-id` inside an edit object: the errors, else `ok` when the edit succeeded, else nothing. */
  function EditOutcome(e: PatchStatusEntity): seq<JsonEvent> {
    if e.editErrors.Some? then ErrorsValue(e.editErrors.value)
    else if e.isOk then Success()
    else []
  }

  function EditObject(e: PatchStatusEntity): seq<JsonEvent> {
    [ObjectStart] + StringMember(EditIdMember, e.editId) + EditOutcome(e) + [ObjectEnd]
  }

  function EditStatusOpening(): seq<JsonEvent> {
    [Member(EditStatusMember), ObjectStart, Member(EditMember), ArrayStart]
  }

  /** `"edit-status": {"edit": [ ... ]}`, one object per edit, in order. */
  function EditStatusValue(edits: seq<PatchStatusEntity>): seq<JsonEvent> {
    EditStatusOpening() + Concat(EditObject, edits) + [ArrayEnd, ObjectEnd]
  }

  /** What follows `patch-id` inside the `yang-patch-status` object. */
  function StatusMembers(b: PatchStatusContext): seq<JsonEvent> {
    if b.ok then Success()
    else if b.globalErrors.Some? then ErrorsValue(b.globalErrors.value)
    else EditStatusValue(b.editCollection)
  }

  function Opening(): seq<JsonEvent> {
    [ObjectStart, Member(YangPatchStatusMember), ObjectStart]
  }

  function Document(b: PatchStatusContext): seq<JsonEvent> {
    Opening() + StringMember(PatchIdMember, b.patchId) + StatusMembers(b) + [ObjectEnd, ObjectEnd]
  }

  // ---------------------------------------------------------------------------------------------
  // The writer

  /** A member holding a string: its name, then its value. */
  method WriteStringMember(jsonWriter: JsonWriter, name: MemberName, text: string)
    modifies jsonWriter
    ensures jsonWriter.events == old(jsonWriter.events) + StringMember(name, text)
  {
    jsonWriter.Name(name);
    jsonWriter.Value(text);
  }

  /** Opens a member whose value is an object holding one array: `"name": {"inner": [`. */
  method OpenWrappedArray(jsonWriter: JsonWriter, name: MemberName, inner: MemberName)
    modifies jsonWriter
    ensures jsonWriter.events == old(jsonWriter.events) + [Member(name), ObjectStart, Member(inner), ArrayStart]
  {
    jsonWriter.Name(name);
    jsonWriter.BeginObject();
    jsonWriter.Name(inner);
    jsonWriter.BeginArray();
  }

  /** Closes what `OpenWrappedArray` opened: `]}`. */
  method CloseWrappedArray(jsonWriter: JsonWriter)
    modifies jsonWriter
    ensures jsonWriter.events == old(jsonWriter.events) + [ArrayEnd, ObjectEnd]
  {
    jsonWriter.EndArray();
    jsonWriter.EndObject();
  }

  /** Writes the whole response into a fresh JSON writer and returns what it received. */
  method WriteTo(body: PatchStatusContext) returns (document: seq<JsonEvent>)
    ensures document == Document(body)
  {
    var jsonWriter := new JsonWriter();
    jsonWriter.BeginObject();
    jsonWriter.Name(YangPatchStatusMember);
    jsonWriter.BeginObject();
    assert jsonWriter.events == Opening();
    WriteStringMember(jsonWriter, PatchIdMember, body.patchId);
    ghost var opening := jsonWriter.events;
    ghost var members := StatusMembers(body);
    assert opening == Opening() + StringMember(PatchIdMember, body.patchId);

    if body.ok {
      ReportSuccess(jsonWriter);
      assert jsonWriter.events == opening + members;
    } else {
      var globalErrors := body.globalErrors;
      if globalErrors.Some? {
        ReportErrors(globalErrors.value, jsonWriter);
        assert jsonWriter.events == opening + members;
      } else {
        var edits := body.editCollection;
        OpenWrappedArray(jsonWriter, EditStatusMember, EditMember);
        for i := 0 to |edits|
          invariant jsonWriter.events == opening + EditStatusOpening() + Concat(EditObject, edits[..i])
        {
          var editStatus := edits[i];
          ghost var before := jsonWriter.events;
          WriteEdit(jsonWriter, editStatus);
          ConcatExtend(EditObject, edits, i, opening + EditStatusOpening(), before, jsonWriter.events);
        }
        CloseWrappedArray(jsonWriter);
        assert edits[..|edits|] == edits;
        Associate4(opening, EditStatusOpening(), Concat(EditObject, edits), [ArrayEnd, ObjectEnd]);
        Associate3(EditStatusOpening(), Concat(EditObject, edits), [ArrayEnd, ObjectEnd]);
      }
    }
    assert jsonWriter.events == opening + members;
    jsonWriter.EndObject();
    jsonWriter.EndObject();
    document := jsonWriter.events;
    Associate3(opening + members, [ObjectEnd], [ObjectEnd]);
    assert [ObjectEnd] + [ObjectEnd] == [ObjectEnd, ObjectEnd];
  }

  /** The body of the loop over the edits: one edit object, its errors taking precedence over `ok`. */
  method WriteEdit(jsonWriter: JsonWriter, editStatus: PatchStatusEntity)
    modifies jsonWriter
    ensures jsonWriter.events == old(jsonWriter.events) + EditObject(editStatus)
  {
    ghost var start := jsonWriter.events;
    jsonWriter.BeginObject();
    WriteStringMember(jsonWriter, EditIdMember, editStatus.editId);
    ghost var opening := jsonWriter.events;

    var editErrors := editStatus.editErrors;
    if editErrors.Some? {
      ReportErrors(editErrors.value, jsonWriter);
    } else if editStatus.isOk {
      ReportSuccess(jsonWriter);
    }
    assert jsonWriter.events == opening + EditOutcome(editStatus);
    jsonWriter.EndObject();
    Associate5(start, [ObjectStart], StringMember(EditIdMember, editStatus.editId), EditOutcome(editStatus), [ObjectEnd]);
    Associate4([ObjectStart], StringMember(EditIdMember, editStatus.editId), EditOutcome(editStatus), [ObjectEnd]);
  }

  method ReportSuccess(jsonWriter: JsonWriter)
    modifies jsonWriter
    ensures jsonWriter.events == old(jsonWriter.events) + Success()
  {
    jsonWriter.Name(OkMember);
    jsonWriter.BeginArray();
    jsonWriter.NullValue();
    jsonWriter.EndArray();
  }

  method ReportErrors(errors: seq<RestconfError>, jsonWriter: JsonWriter)
    modifies jsonWriter
    ensures jsonWriter.events == old(jsonWriter.events) + ErrorsValue(errors)
  {
    ghost var start := jsonWriter.events;
    OpenWrappedArray(jsonWriter, ErrorsMember, ErrorMember);
    for i := 0 to |errors|
      invariant jsonWriter.events == start + ErrorsOpening() + Concat(ErrorObject, errors[..i])
    {
      var restconfError := errors[i];
      ghost var before := jsonWriter.events;
      WriteError(jsonWriter, restconfError);
      ConcatExtend(ErrorObject, errors, i, start + ErrorsOpening(), before, jsonWriter.events);
    }
    assert errors[..|errors|] == errors;
    CloseWrappedArray(jsonWriter);
    Associate4(start, ErrorsOpening(), Concat(ErrorObject, errors), [ArrayEnd, ObjectEnd]);
    Associate3(ErrorsOpening(), Concat(ErrorObject, errors), [ArrayEnd, ObjectEnd]);
  }

  /** The body of the loop over the errors: one error object, the optional members only when set. */
  method WriteError(jsonWriter: JsonWriter, restconfError: RestconfError)
    modifies jsonWriter
    ensures jsonWriter.events == old(jsonWriter.events) + ErrorObject(restconfError)
  {
    ghost var outer := jsonWriter.events;
    jsonWriter.BeginObject();
    ghost var start := jsonWriter.events;
    WriteStringMember(jsonWriter, ErrorTypeMember, restconfError.errorType.ElementBody());
    WriteStringMember(jsonWriter, ErrorTagMember, restconfError.errorTag.elementBody);

    var errorPath := restconfError.errorPath;
    if errorPath.Some? {
      jsonWriter.Name(ErrorPathMember);
      WriteInstanceIdentifier(jsonWriter, errorPath.value);
    }
    ghost var typ := StringMember(ErrorTypeMember, restconfError.errorType.ElementBody());
    ghost var tag := StringMember(ErrorTagMember, restconfError.errorTag.elementBody);
    ghost var written := typ + tag + ErrorPathValue(errorPath);
    Associate4(start, typ, tag, ErrorPathValue(errorPath));
    assert jsonWriter.events == start + written;

    WriteOptionalStringMember(jsonWriter, ErrorMessageMember, restconfError.errorMessage);
    WriteOptionalStringMember(jsonWriter, ErrorInfoMember, restconfError.errorInfo);
    Associate4(start, written, OptionalStringMember(ErrorMessageMember, restconfError.errorMessage),
      OptionalStringMember(ErrorInfoMember, restconfError.errorInfo));
    assert jsonWriter.events == start + ErrorFields(restconfError);
    jsonWriter.EndObject();
    Associate4(outer, [ObjectStart], ErrorFields(restconfError), [ObjectEnd]);
    Associate3([ObjectStart], ErrorFields(restconfError), [ObjectEnd]);
  }

  /** A string member written only when its value is set. */
  method WriteOptionalStringMember(jsonWriter: JsonWriter, name: MemberName, text: Option<string>)
    modifies jsonWriter
    ensures jsonWriter.events == old(jsonWriter.events) + OptionalStringMember(name, text)
  {
    if text.Some? {
      WriteStringMember(jsonWriter, name, text.value);
    }
  }

  // ---------------------------------------------------------------------------------------------
  // Nesting: every object and array is closed, innermost first, by the matching bracket

  datatype Container = ObjectContainer | ArrayContainer

  function JsonBracket(e: JsonEvent): Bracket<Container> {
    match e
    case ObjectStart => Open(ObjectContainer)
    case ObjectEnd => Close(ObjectContainer)
    case ArrayStart => Open(ArrayContainer)
    case ArrayEnd => Close(ArrayContainer)
    case _ => Flat
  }

  lemma ErrorObjectBalanced(e: RestconfError)
    ensures Balanced(JsonBracket, ErrorObject(e))
  {
    BalancedFlat(JsonBracket, ErrorFields(e));
    BalancedWrap(JsonBracket, ObjectStart, ErrorFields(e), ObjectEnd);
  }

  /** `"name": {"inner": [` items `]}` closes what it opens when every item does. */
  lemma WrappedArrayBalanced(name: MemberName, inner: MemberName, items: seq<JsonEvent>)
    requires Balanced(JsonBracket, items)
    ensures Balanced(JsonBracket, [Member(name), ObjectStart, Member(inner), ArrayStart] + items + [ArrayEnd, ObjectEnd])
  {
    BalancedWrap(JsonBracket, ArrayStart, items, ArrayEnd);
    BalancedFlat(JsonBracket, [Member(inner)]);
    BalancedAppend(JsonBracket, [Member(inner)], [ArrayStart] + items + [ArrayEnd]);
    BalancedWrap(JsonBracket, ObjectStart, [Member(inner)] + ([ArrayStart] + items + [ArrayEnd]), ObjectEnd);
    BalancedFlat(JsonBracket, [Member(name)]);
    BalancedAppend(JsonBracket, [Member(name)], [ObjectStart] + ([Member(inner)] + ([ArrayStart] + items + [ArrayEnd])) + [ObjectEnd]);
    assert [Member(name), ObjectStart, Member(inner), ArrayStart] + items + [ArrayEnd, ObjectEnd]
        == [Member(name)] + ([ObjectStart] + ([Member(inner)] + ([ArrayStart] + items + [ArrayEnd])) + [ObjectEnd]);
  }

  lemma ErrorsValueBalanced(errors: seq<RestconfError>)
    ensures Balanced(JsonBracket, ErrorsValue(errors))
  {
    forall e | e in errors ensures Balanced(JsonBracket, ErrorObject(e)) {
      ErrorObjectBalanced(e);
    }
    BalancedConcat(JsonBracket, ErrorObject, errors);
    WrappedArrayBalanced(ErrorsMember, ErrorMember, Concat(ErrorObject, errors));
  }

  lemma SuccessBalanced()
    ensures Balanced(JsonBracket, Success())
  {
    BalancedFlat(JsonBracket, [Null]);
    BalancedWrap(JsonBracket, ArrayStart, [Null], ArrayEnd);
    BalancedFlat(JsonBracket, [Member(OkMember)]);
    BalancedAppend(JsonBracket, [Member(OkMember)], [ArrayStart] + [Null] + [ArrayEnd]);
    assert Success() == [Member(OkMember)] + ([ArrayStart] + [Null] + [ArrayEnd]);
  }

  lemma EditOutcomeBalanced(e: PatchStatusEntity)
    ensures Balanced(JsonBracket, EditOutcome(e))
  {
    if e.editErrors.Some? {
      ErrorsValueBalanced(e.editErrors.value);
    } else if e.isOk {
      SuccessBalanced();
    } else {
      BalancedFlat(JsonBracket, EditOutcome(e));
    }
  }

  lemma EditObjectBalanced(e: PatchStatusEntity)
    ensures Balanced(JsonBracket, EditObject(e))
  {
    BalancedFlat(JsonBracket, StringMember(EditIdMember, e.editId));
    EditOutcomeBalanced(e);
    BalancedAppend(JsonBracket, StringMember(EditIdMember, e.editId), EditOutcome(e));
    BalancedWrap(JsonBracket, ObjectStart, StringMember(EditIdMember, e.editId) + EditOutcome(e), ObjectEnd);
    Associate3([ObjectStart], StringMember(EditIdMember, e.editId), EditOutcome(e));
  }

  lemma StatusMembersBalanced(b: PatchStatusContext)
    ensures Balanced(JsonBracket, StatusMembers(b))
  {
    if b.ok {
      SuccessBalanced();
    } else if b.globalErrors.Some? {
      ErrorsValueBalanced(b.globalErrors.value);
    } else {
      forall e | e in b.editCollection ensures Balanced(JsonBracket, EditObject(e)) {
        EditObjectBalanced(e);
      }
      BalancedConcat(JsonBracket, EditObject, b.editCollection);
      WrappedArrayBalanced(EditStatusMember, EditMember, Concat(EditObject, b.editCollection));
    }
  }

  /**
   * The value of the single top-level member `ietf-yang-patch:yang-patch-status` is an object that
   * closes everything it opens; so the document as a whole is well nested.
   */
  lemma DocumentWellNested(b: PatchStatusContext)
    ensures Balanced(JsonBracket, StatusObject(b))
    ensures WellNested(JsonBracket, Document(b))
  {
    StatusObjectBalanced(b);
    BalancedFlat(JsonBracket, [Member(YangPatchStatusMember)]);
    BalancedAppend(JsonBracket, [Member(YangPatchStatusMember)], StatusObject(b));
    BalancedWrap(JsonBracket, ObjectStart, [Member(YangPatchStatusMember)] + StatusObject(b), ObjectEnd);
    DocumentAsStatusObject(b);
    BalancedIsWellNested(JsonBracket, Document(b));
  }

  lemma StatusObjectBalanced(b: PatchStatusContext)
    ensures Balanced(JsonBracket, StatusObject(b))
  {
    var id := StringMember(PatchIdMember, b.patchId);
    BalancedFlat(JsonBracket, id);
    StatusMembersBalanced(b);
    BalancedAppend(JsonBracket, id, StatusMembers(b));
    BalancedWrap(JsonBracket, ObjectStart, id + StatusMembers(b), ObjectEnd);
    Associate3([ObjectStart], id, StatusMembers(b));
  }

  /** The value of the top-level member: the object holding `patch-id` and the outcome. */
  function StatusObject(b: PatchStatusContext): seq<JsonEvent> {
    [ObjectStart] + StringMember(PatchIdMember, b.patchId) + StatusMembers(b) + [ObjectEnd]
  }

  /** The document is one object holding the single member `ietf-yang-patch:yang-patch-status`, whose value is the status object. */
  lemma DocumentAsStatusObject(b: PatchStatusContext)
    ensures Document(b) == [ObjectStart] + ([Member(YangPatchStatusMember)] + StatusObject(b)) + [ObjectEnd]
  {
    var p, q, m, t, e := [ObjectStart], [Member(YangPatchStatusMember)], StringMember(PatchIdMember, b.patchId), StatusMembers(b), [ObjectEnd];
    assert Opening() == p + q + p;
    assert [ObjectEnd, ObjectEnd] == e + e;
    // Both sides, regrouped to the right, are p, q, p, m, t, e, e.
    Associate5(p + q, p, m, t, e + e);
    Associate3(p, q, p + (m + (t + (e + e))));
    Associate5(p, m, t, e, e);
    Associate3(q, p + m + t + e, e);
    Associate3(p, q + (p + m + t + e), e);
  }

  // ---------------------------------------------------------------------------------------------
  // The shape of the document

  /** The first member of the status object is `patch-id`, holding the patch id. */
  lemma DocumentOpening(b: PatchStatusContext)
    ensures |Document(b)| >= 7
    ensures Document(b)[..5] == [ObjectStart, Member(YangPatchStatusMember), ObjectStart, Member(PatchIdMember), StringValue(b.patchId)]
    ensures Document(b)[|Document(b)| - 2..] == [ObjectEnd, ObjectEnd]
  {
  }

  /** On success the status object holds `patch-id` and `"ok": [null]`, and nothing else. */
  lemma OkDocument(b: PatchStatusContext)
    requires b.ok
    ensures Document(b) == Opening() + StringMember(PatchIdMember, b.patchId)
                           + [Member(OkMember), ArrayStart, Null, ArrayEnd, ObjectEnd, ObjectEnd]
    ensures Member(ErrorsMember) !in Document(b) && Member(EditStatusMember) !in Document(b)
  {
  }

  /** Error objects never hold the members that belong to success or to the edit status. */
  lemma ErrorObjectsExclude(errors: seq<RestconfError>)
    ensures Member(EditStatusMember) !in Concat(ErrorObject, errors)
    ensures Member(EditMember) !in Concat(ErrorObject, errors)
    ensures Member(OkMember) !in Concat(ErrorObject, errors)
  {
    forall x | x in errors
      ensures Member(EditStatusMember) !in ErrorObject(x) && Member(EditMember) !in ErrorObject(x)
      ensures Member(OkMember) !in ErrorObject(x)
    {
    }
    ConcatExcludes(ErrorObject, errors, Member(EditStatusMember));
    ConcatExcludes(ErrorObject, errors, Member(EditMember));
    ConcatExcludes(ErrorObject, errors, Member(OkMember));
  }

  /** Global errors are reported after `patch-id`, and then neither `ok` nor an edit status is written. */
  lemma GlobalErrorsDocument(b: PatchStatusContext)
    requires !b.ok && b.globalErrors.Some?
    ensures Document(b)[5..9] == [Member(ErrorsMember), ObjectStart, Member(ErrorMember), ArrayStart]
    ensures Member(EditStatusMember) !in Document(b) && Member(EditMember) !in Document(b)
    ensures Member(OkMember) !in Document(b)
  {
    var errors := b.globalErrors.value;
    var items := Concat(ErrorObject, errors);
    OutcomeSplit(b, ErrorsOpening(), items);
    ErrorObjectsExclude(errors);
  }

  /** Without success or global errors, `edit-status` follows `patch-id`, holding the array of edits. */
  lemma EditStatusDocument(b: PatchStatusContext)
    requires !b.ok && b.globalErrors.None?
    ensures Document(b)[5..9] == [Member(EditStatusMember), ObjectStart, Member(EditMember), ArrayStart]
    ensures Document(b)[9..] == Concat(EditObject, b.editCollection) + [ArrayEnd, ObjectEnd, ObjectEnd, ObjectEnd]
  {
    OutcomeSplit(b, EditStatusOpening(), Concat(EditObject, b.editCollection));
  }

  /**
   * A document whose outcome is a wrapped array, `opening` then `items` then the closing of the
   * array and its object: the wrapper opening sits at 5..9, the items and every closing follow.
   */
  lemma OutcomeSplit(b: PatchStatusContext, opening: seq<JsonEvent>, items: seq<JsonEvent>)
    requires |opening| == 4
    requires StatusMembers(b) == opening + items + [ArrayEnd, ObjectEnd]
    ensures Document(b)[5..9] == opening
    ensures Document(b)[9..] == items + [ArrayEnd, ObjectEnd, ObjectEnd, ObjectEnd]
    ensures Document(b) == Opening() + StringMember(PatchIdMember, b.patchId) + opening + (items + [ArrayEnd, ObjectEnd, ObjectEnd, ObjectEnd])
  {
    var head := Opening() + StringMember(PatchIdMember, b.patchId);
    var z, y := [ArrayEnd, ObjectEnd], [ObjectEnd, ObjectEnd];
    var tail := [ArrayEnd, ObjectEnd, ObjectEnd, ObjectEnd];
    assert z + y == tail;
    Associate3(head, opening + items + z, y);
    Associate4(opening, items, z, y);
    Associate3(head, opening, items + tail);
    assert Document(b) == head + opening + (items + tail);
    assert |head| == 5;
    assert (head + opening)[5..9] == opening;
  }

  /**
   * One edit object: `edit-id` first; errors take precedence over success, success is `"ok": [null]`,
   * and with neither the object holds `edit-id` alone.
   */
  lemma EditObjectShape(e: PatchStatusEntity)
    ensures EditObject(e)[..3] == [ObjectStart, Member(EditIdMember), StringValue(e.editId)]
    ensures e.editErrors.Some? ==> EditObject(e)[3] == Member(ErrorsMember) && Member(OkMember) !in EditObject(e)
    ensures e.editErrors.None? && e.isOk ==> EditObject(e)[3..] == [Member(OkMember), ArrayStart, Null, ArrayEnd, ObjectEnd]
    ensures e.editErrors.None? && !e.isOk ==> EditObject(e)[3..] == [ObjectEnd]
  {
    var head := [ObjectStart] + StringMember(EditIdMember, e.editId);
    Associate3(head, EditOutcome(e), [ObjectEnd]);
    assert EditObject(e)[..3] == head && EditObject(e)[3..] == EditOutcome(e) + [ObjectEnd];
    if e.editErrors.Some? {
      var errors := e.editErrors.value;
      forall x | x in errors ensures Member(OkMember) !in ErrorObject(x) {
      }
      ConcatExcludes(ErrorObject, errors, Member(OkMember));
    }
  }

  /**
   * Each error object holds `error-type`, then `error-tag`, and an `error-path`, `error-message` or
   * `error-info` member exactly when that field is set.
   */
  lemma ErrorObjectShape(e: RestconfError)
    ensures ErrorObject(e)[..5] == [ObjectStart, Member(ErrorTypeMember), StringValue(e.errorType.ElementBody()),
                                    Member(ErrorTagMember), StringValue(e.errorTag.elementBody)]
    ensures ErrorObject(e)[|ErrorObject(e)| - 1] == ObjectEnd
    ensures Member(ErrorPathMember) in ErrorObject(e) <==> e.errorPath.Some?
    ensures Member(ErrorMessageMember) in ErrorObject(e) <==> e.errorMessage.Some?
    ensures Member(ErrorInfoMember) in ErrorObject(e) <==> e.errorInfo.Some?
  {
  }

  // ---------------------------------------------------------------------------------------------
  // Reading the document back: nothing the status reports is lost or ambiguous

  /** Consumes `expected` from the front of `events`. */
  function ParseExactly(events: seq<JsonEvent>, expected: seq<JsonEvent>): (r: Option<seq<JsonEvent>>)
    ensures r.Some? ==> events == expected + r.value
  {
    if |expected| <= |events| && events[..|expected|] == expected then Some(events[|expected|..]) else None
  }

  function ParseStringMember(events: seq<JsonEvent>, name: MemberName): (r: Option<(string, seq<JsonEvent>)>)
    ensures r.Some? ==> |r.value.1| < |events|
  {
    if |events| >= 2 && events[0] == Member(name) && events[1].StringValue?
    then Some((events[1].text, events[2..]))
    else None
  }

  function ParseOptionalStringMember(events: seq<JsonEvent>, name: MemberName): (r: Option<(Option<string>, seq<JsonEvent>)>)
    ensures r.Some? ==> |r.value.1| <= |events|
  {
    if |events| > 0 && events[0] == Member(name) then
      var t :- ParseStringMember(events, name);
      Some((Some(t.0), t.1))
    else Some((None, events))
  }

  function ParseErrorPath(events: seq<JsonEvent>): (r: Option<(Option<InstanceIdentifier>, seq<JsonEvent>)>)
    ensures r.Some? ==> |r.value.1| <= |events|
  {
    if |events| > 0 && events[0] == Member(ErrorPathMember) then
      if |events| >= 2 && events[1].InstanceIdentifierValue?
      then Some((Some(events[1].path), events[2..]))
      else None
    else Some((None, events))
  }

  function ParseErrorObject(events: seq<JsonEvent>): (r: Option<(RestconfError, seq<JsonEvent>)>)
    ensures r.Some? ==> |r.value.1| < |events|
  {
    var fields :- ParseExactly(events, [ObjectStart]);
    var t :- ParseStringMember(fields, ErrorTypeMember);
    var errorType :- ErrorTypeOf(t.0);
    var g :- ParseStringMember(t.1, ErrorTagMember);
    var p :- ParseErrorPath(g.1);
    var m :- ParseOptionalStringMember(p.1, ErrorMessageMember);
    var i :- ParseOptionalStringMember(m.1, ErrorInfoMember);
    var rest :- ParseExactly(i.1, [ObjectEnd]);
    Some((RestconfError(errorType, ErrorTag(g.0), p.0, m.0, i.0), rest))
  }

  /** The objects of the `error` array, up to its closing bracket. */
  function ParseErrorObjects(events: seq<JsonEvent>): (r: Option<(seq<RestconfError>, seq<JsonEvent>)>)
    ensures r.Some? ==> |r.value.1| <= |events|
    decreases |events|
  {
    if |events| > 0 && events[0] == ObjectStart then
      var e :- ParseErrorObject(events);
      var es :- ParseErrorObjects(e.1);
      Some(([e.0] + es.0, es.1))
    else Some(([], events))
  }

  function ParseErrorsValue(events: seq<JsonEvent>): (r: Option<(seq<RestconfError>, seq<JsonEvent>)>)
  {
    var items :- ParseExactly(events, ErrorsOpening());
    var es :- ParseErrorObjects(items);
    var rest :- ParseExactly(es.1, [ArrayEnd, ObjectEnd]);
    Some((es.0, rest))
  }

  function ParseEditOutcome(events: seq<JsonEvent>): (r: Option<(EditReport, seq<JsonEvent>)>)
  {
    if |events| > 0 && events[0] == Member(ErrorsMember) then
      var es :- ParseErrorsValue(events);
      Some((EditErrors(es.0), es.1))
    else if |events| > 0 && events[0] == Member(OkMember) then
      var rest :- ParseExactly(events, Success());
      Some((EditOk, rest))
    else Some((EditNoStatus, events))
  }

  function ParseEditObject(events: seq<JsonEvent>): (r: Option<(EditView, seq<JsonEvent>)>)
    ensures r.Some? ==> |r.value.1| < |events|
  {
    var members :- ParseExactly(events, [ObjectStart]);
    var id :- ParseStringMember(members, EditIdMember);
    var outcome :- ParseEditOutcome(id.1);
    var rest :- ParseExactly(outcome.1, [ObjectEnd]);
    Some((EditView(id.0, outcome.0), rest))
  }

  /** The objects of the `edit` array, up to its closing bracket. */
  function ParseEditObjects(events: seq<JsonEvent>): (r: Option<(seq<EditView>, seq<JsonEvent>)>)
    ensures r.Some? ==> |r.value.1| <= |events|
    decreases |events|
  {
    if |events| > 0 && events[0] == ObjectStart then
      var e :- ParseEditObject(events);
      var es :- ParseEditObjects(e.1);
      Some(([e.0] + es.0, es.1))
    else Some(([], events))
  }

  function ParseStatusMembers(events: seq<JsonEvent>): (r: Option<(StatusReport, seq<JsonEvent>)>)
  {
    if |events| > 0 && events[0] == Member(OkMember) then
      var rest :- ParseExactly(events, Success());
      Some((GlobalOk, rest))
    else if |events| > 0 && events[0] == Member(ErrorsMember) then
      var es :- ParseErrorsValue(events);
      Some((GlobalErrors(es.0), es.1))
    else if |events| > 0 && events[0] == Member(EditStatusMember) then
      var items :- ParseExactly(events, EditStatusOpening());
      var es :- ParseEditObjects(items);
      var rest :- ParseExactly(es.1, [ArrayEnd, ObjectEnd]);
      Some((EditStatus(es.0), rest))
    else None
  }

  /** Reads a whole document; `None` unless the events are exactly one `yang-patch-status` document. */
  function ParseDocument(events: seq<JsonEvent>): Option<StatusView>
  {
    var members :- ParseExactly(events, Opening());
    var id :- ParseStringMember(members, PatchIdMember);
    var report :- ParseStatusMembers(id.1);
    if report.1 == [ObjectEnd, ObjectEnd] then Some(StatusView(id.0, report.0)) else None
  }

  lemma ParseExactlyRoundTrip(expected: seq<JsonEvent>, rest: seq<JsonEvent>)
    ensures ParseExactly(expected + rest, expected) == Some(rest)
  {
    assert (expected + rest)[..|expected|] == expected;
    assert (expected + rest)[|expected|..] == rest;
  }

  lemma ParseStringMemberRoundTrip(name: MemberName, text: string, rest: seq<JsonEvent>)
    ensures ParseStringMember(StringMember(name, text) + rest, name) == Some((text, rest))
  {
    assert (StringMember(name, text) + rest)[2..] == rest;
  }

  lemma ParseOptionalStringMemberRoundTrip(name: MemberName, text: Option<string>, rest: seq<JsonEvent>)
    requires rest == [] || rest[0] != Member(name)
    ensures ParseOptionalStringMember(OptionalStringMember(name, text) + rest, name) == Some((text, rest))
  {
    if text.Some? {
      ParseStringMemberRoundTrip(name, text.value, rest);
    } else {
      assert OptionalStringMember(name, text) + rest == rest;
    }
  }

  lemma ParseErrorPathRoundTrip(path: Option<InstanceIdentifier>, rest: seq<JsonEvent>)
    requires rest == [] || rest[0] != Member(ErrorPathMember)
    ensures ParseErrorPath(ErrorPathValue(path) + rest) == Some((path, rest))
  {
    if path.Some? {
      assert (ErrorPathValue(path) + rest)[2..] == rest;
    } else {
      assert ErrorPathValue(path) + rest == rest;
    }
  }

  /** Reading one error object gives the error back, whatever follows it. */
  lemma ParseErrorObjectRoundTrip(e: RestconfError, rest: seq<JsonEvent>)
    ensures ParseErrorObject(ErrorObject(e) + rest) == Some((e, rest))
  {
    var end := [ObjectEnd] + rest;
    var info := OptionalStringMember(ErrorInfoMember, e.errorInfo);
    var message := OptionalStringMember(ErrorMessageMember, e.errorMessage);
    var path := ErrorPathValue(e.errorPath);
    var tag := StringMember(ErrorTagMember, e.errorTag.elementBody);
    var afterMessage := info + end;
    var afterPath := message + afterMessage;
    var afterTag := path + afterPath;
    var afterType := tag + afterTag;
    var typ := StringMember(ErrorTypeMember, e.errorType.ElementBody());
    var fields := typ + afterType;
    Associate4([ObjectStart], ErrorFields(e), [ObjectEnd], rest);
    Associate5(typ + tag, path, message, info, end);
    Associate3(typ, tag, afterTag);
    ParseExactlyRoundTrip([ObjectStart], fields);
    ParseStringMemberRoundTrip(ErrorTypeMember, e.errorType.ElementBody(), afterType);
    ErrorTypeRoundTrip(e.errorType);
    ParseStringMemberRoundTrip(ErrorTagMember, e.errorTag.elementBody, afterTag);
    ParseErrorPathRoundTrip(e.errorPath, afterPath);
    ParseOptionalStringMemberRoundTrip(ErrorMessageMember, e.errorMessage, afterMessage);
    ParseOptionalStringMemberRoundTrip(ErrorInfoMember, e.errorInfo, end);
    ParseExactlyRoundTrip([ObjectEnd], rest);
  }

  lemma {:induction false} ParseErrorObjectsRoundTrip(errors: seq<RestconfError>, rest: seq<JsonEvent>)
    requires rest == [] || rest[0] == ArrayEnd
    ensures ParseErrorObjects(Concat(ErrorObject, errors) + rest) == Some((errors, rest))
    decreases |errors|
  {
    if errors == [] {
      assert Concat(ErrorObject, errors) + rest == rest;
    } else {
      var tail := Concat(ErrorObject, errors[1..]) + rest;
      Associate3(ErrorObject(errors[0]), Concat(ErrorObject, errors[1..]), rest);
      ParseErrorObjectRoundTrip(errors[0], tail);
      ParseErrorObjectsRoundTrip(errors[1..], rest);
      assert [errors[0]] + errors[1..] == errors;
    }
  }

  lemma ParseErrorsValueRoundTrip(errors: seq<RestconfError>, rest: seq<JsonEvent>)
    ensures ParseErrorsValue(ErrorsValue(errors) + rest) == Some((errors, rest))
  {
    var items := Concat(ErrorObject, errors) + ([ArrayEnd, ObjectEnd] + rest);
    Associate4(ErrorsOpening(), Concat(ErrorObject, errors), [ArrayEnd, ObjectEnd], rest);
    ParseExactlyRoundTrip(ErrorsOpening(), items);
    ParseErrorObjectsRoundTrip(errors, [ArrayEnd, ObjectEnd] + rest);
    ParseExactlyRoundTrip([ArrayEnd, ObjectEnd], rest);
  }

  lemma ParseEditOutcomeRoundTrip(e: PatchStatusEntity, rest: seq<JsonEvent>)
    requires rest == [] || rest[0] == ObjectEnd
    ensures ParseEditOutcome(EditOutcome(e) + rest) == Some((EditViewOf(e).report, rest))
  {
    if e.editErrors.Some? {
      ParseErrorsValueRoundTrip(e.editErrors.value, rest);
    } else if e.isOk {
      ParseExactlyRoundTrip(Success(), rest);
    } else {
      assert EditOutcome(e) + rest == rest;
    }
  }

  lemma ParseEditObjectRoundTrip(e: PatchStatusEntity, rest: seq<JsonEvent>)
    ensures ParseEditObject(EditObject(e) + rest) == Some((EditViewOf(e), rest))
  {
    var end := [ObjectEnd] + rest;
    var afterId := EditOutcome(e) + end;
    var members := StringMember(EditIdMember, e.editId) + afterId;
    Associate5([ObjectStart], StringMember(EditIdMember, e.editId), EditOutcome(e), [ObjectEnd], rest);
    ParseExactlyRoundTrip([ObjectStart], members);
    ParseStringMemberRoundTrip(EditIdMember, e.editId, afterId);
    ParseEditOutcomeRoundTrip(e, end);
    ParseExactlyRoundTrip([ObjectEnd], rest);
  }

  lemma {:induction false} ParseEditObjectsRoundTrip(edits: seq<PatchStatusEntity>, rest: seq<JsonEvent>)
    requires rest == [] || rest[0] == ArrayEnd
    ensures ParseEditObjects(Concat(EditObject, edits) + rest) == Some((EditViews(edits), rest))
    decreases |edits|
  {
    if edits == [] {
      assert Concat(EditObject, edits) + rest == rest;
    } else {
      var tail := Concat(EditObject, edits[1..]) + rest;
      Associate3(EditObject(edits[0]), Concat(EditObject, edits[1..]), rest);
      ParseEditObjectRoundTrip(edits[0], tail);
      ParseEditObjectsRoundTrip(edits[1..], rest);
    }
  }

  lemma StatusMembersRoundTrip(b: PatchStatusContext)
    ensures ParseStatusMembers(StatusMembers(b) + [ObjectEnd, ObjectEnd]) == Some((ViewOf(b).report, [ObjectEnd, ObjectEnd]))
  {
    var end := [ObjectEnd, ObjectEnd];
    if b.ok {
      ParseExactlyRoundTrip(Success(), end);
    } else if b.globalErrors.Some? {
      ParseErrorsValueRoundTrip(b.globalErrors.value, end);
    } else {
      var edits := b.editCollection;
      var items := Concat(EditObject, edits) + ([ArrayEnd, ObjectEnd] + end);
      Associate4(EditStatusOpening(), Concat(EditObject, edits), [ArrayEnd, ObjectEnd], end);
      ParseExactlyRoundTrip(EditStatusOpening(), items);
      ParseEditObjectsRoundTrip(edits, [ArrayEnd, ObjectEnd] + end);
      ParseExactlyRoundTrip([ArrayEnd, ObjectEnd], end);
    }
  }

  /**
   * Reading the document back gives exactly the report the status stands for: the patch id, and
   * success, the global errors, or every edit in order with its errors, its success or nothing.
   */
  lemma DocumentRoundTrip(b: PatchStatusContext)
    ensures ParseDocument(Document(b)) == Some(ViewOf(b))
  {
    var end := [ObjectEnd, ObjectEnd];
    var afterId := StatusMembers(b) + end;
    var members := StringMember(PatchIdMember, b.patchId) + afterId;
    Associate4(Opening(), StringMember(PatchIdMember, b.patchId), StatusMembers(b), end);
    ParseExactlyRoundTrip(Opening(), members);
    ParseStringMemberRoundTrip(PatchIdMember, b.patchId, afterId);
    StatusMembersRoundTrip(b);
  }
}
