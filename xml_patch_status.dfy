/**
 * The XML form of the `yang-patch-status` response (section 2.3 of RFC 8072), written as a
 * sequence of XML stream events. The root element carries the ietf-yang-patch namespace; the
 * children inherit it.
 */
module XmlPatchStatusBodyWriter {
  import opened Wrappers
  import opened Yang
  import opened Errors
  import opened EventStreams
  import opened PatchStatus

  /** The namespace of the ietf-yang-patch module. */
  const YangPatchNamespace := "urn:ietf:params:xml:ns:yang:ietf-yang-patch"

  datatype Namespace = Namespace(prefix: string, uri: string)

  /** The elements of a `yang-patch-status` document. */
  datatype ElementName =
    | YangPatchStatusName | PatchIdName | OkName
    | ErrorsName | ErrorTypeName | ErrorTagName | ErrorPathName | ErrorMessageName | ErrorInfoName
    | EditStatusName | EditName | EditIdName
  {
    /** The local name written for the element. */
    function LocalName(): string {
      match this
      case YangPatchStatusName => "yang-patch-status"
      case PatchIdName => "patch-id"
      case OkName => "ok"
      case ErrorsName => "errors"
      case ErrorTypeName => "error-type"
      case ErrorTagName => "error-tag"
      case ErrorPathName => "error-path"
      case ErrorMessageName => "error-message"
      case ErrorInfoName => "error-info"
      case EditStatusName => "edit-status"
      case EditName => "edit"
      case EditIdName => "edit-id"
    }
  }

  /** Distinct elements are written with distinct local names, so a reader can tell them apart. */
  lemma LocalNamesDistinct(a: ElementName, b: ElementName)
    requires a.LocalName() == b.LocalName()
    ensures a == b
  {
  }

  /** One call on an XML stream writer. */
  datatype XmlEvent =
    | StartElement(name: ElementName, namespace: Option<Namespace>)
    | EndElement
    | EmptyElement(name: ElementName)
    | Characters(text: string)
      /** What the instance-identifier codec writes for a path; its text is not modelled. */
    | InstanceIdentifierText(path: InstanceIdentifier)

  /** The stream writer the body writer drives: it records every call, in order. */
  class XmlStreamWriter {
    var events: seq<XmlEvent>

    constructor ()
      ensures events == []
    {
      events := [];
    }

    method WriteStartElement(name: ElementName)
      modifies this
      ensures events == old(events) + [StartElement(name, None)]
    {
      events := events + [StartElement(name, None)];
    }

    method WriteStartElementNs(prefix: string, name: ElementName, namespaceUri: string)
      modifies this
      ensures events == old(events) + [StartElement(name, Some(Namespace(prefix, namespaceUri)))]
    {
      events := events + [StartElement(name, Some(Namespace(prefix, namespaceUri)))];
    }

    method WriteEndElement()
      modifies this
      ensures events == old(events) + [EndElement]
    {
      events := events + [EndElement];
    }

    method WriteEmptyElement(name: ElementName)
      modifies this
      ensures events == old(events) + [EmptyElement(name)]
    {
      events := events + [EmptyElement(name)];
    }

    method WriteCharacters(text: string)
      modifies this
      ensures events == old(events) + [Characters(text)]
    {
      events := events + [Characters(text)];
    }
  }

  /** The instance-identifier codec writing a path as the content of the current element. */
  method WriteInstanceIdentifier(writer: XmlStreamWriter, path: InstanceIdentifier)
    modifies writer
    ensures writer.events == old(writer.events) + [InstanceIdentifierText(path)]
  {
    writer.events := writer.events + [InstanceIdentifierText(path)];
  }

  // ---------------------------------------------------------------------------------------------
  // The document, as a function of the patch status

  /** A start element without a namespace of its own. */
  function Start(name: ElementName): XmlEvent {
    StartElement(name, None)
  }

  const Root := StartElement(YangPatchStatusName, Some(Namespace("", YangPatchNamespace)))

  function TextElement(name: ElementName, text: string): seq<XmlEvent> {
    [Start(name), Characters(text), EndElement]
  }

  function OptionalTextElement(name: ElementName, text: Option<string>): seq<XmlEvent> {
    if text.Some? then TextElement(name, text.value) else []
  }

  function ErrorPathElement(path: Option<InstanceIdentifier>): seq<XmlEvent> {
    if path.Some? then [Start(ErrorPathName), InstanceIdentifierText(path.value), EndElement] else []
  }

  /** The elements written for one error; they are not wrapped in an element of their own. */
  function ErrorFields(e: RestconfError): seq<XmlEvent> {
    TextElement(ErrorTypeName, e.errorType.ElementBody())
      + TextElement(ErrorTagName, e.errorTag.elementBody)
      + ErrorPathElement(e.errorPath)
      + OptionalTextElement(ErrorMessageName, e.errorMessage)
      + OptionalTextElement(ErrorInfoName, e.errorInfo)
  }

  function ErrorsElement(errors: seq<RestconfError>): seq<XmlEvent> {
    [Start(ErrorsName)] + Concat(ErrorFields, errors) + [EndElement]
  }

  /** What follows `edit-id` inside `edit`: the errors, else `ok` when the edit succeeded, else nothing. */
  function EditOutcome(e: PatchStatusEntity): seq<XmlEvent> {
    if e.editErrors.Some? then ErrorsElement(e.editErrors.value)
    else if e.isOk then [EmptyElement(OkName)]
    else []
  }

  function EditElement(e: PatchStatusEntity): seq<XmlEvent> {
    [Start(EditName)] + TextElement(EditIdName, e.editId) + EditOutcome(e) + [EndElement]
  }

  function EditStatusElement(edits: seq<PatchStatusEntity>): seq<XmlEvent> {
    [Start(EditStatusName)] + Concat(EditElement, edits) + [EndElement]
  }

  /** What follows `patch-id` inside the root element. */
  function StatusChildren(b: PatchStatusContext): seq<XmlEvent> {
    if b.ok then [EmptyElement(OkName)]
    else if b.globalErrors.Some? then ErrorsElement(b.globalErrors.value)
    else EditStatusElement(b.editCollection)
  }

  function Document(b: PatchStatusContext): seq<XmlEvent> {
    [Root] + TextElement(PatchIdName, b.patchId) + StatusChildren(b) + [EndElement]
  }

  // ---------------------------------------------------------------------------------------------
  // The writer

  /** An element holding only text: start element, characters, end element. */
  method WriteTextElement(writer: XmlStreamWriter, name: ElementName, text: string)
    modifies writer
    ensures writer.events == old(writer.events) + TextElement(name, text)
  {
    writer.WriteStartElement(name);
    writer.WriteCharacters(text);
    writer.WriteEndElement();
  }

  /** Writes the whole response into a fresh stream writer and returns what it received. */
  method WriteTo(body: PatchStatusContext) returns (document: seq<XmlEvent>)
    ensures document == Document(body)
  {
    var writer := new XmlStreamWriter();
    WriteDocument(writer, body);
    document := writer.events;
  }

  method WriteDocument(writer: XmlStreamWriter, body: PatchStatusContext)
    modifies writer
    ensures writer.events == old(writer.events) + Document(body)
  {
    ghost var start := writer.events;
    writer.WriteStartElementNs("", YangPatchStatusName, YangPatchNamespace);
    WriteTextElement(writer, PatchIdName, body.patchId);
    ghost var opening := writer.events;
    ghost var head := [Root] + TextElement(PatchIdName, body.patchId);
    ghost var children := StatusChildren(body);
    Associate3(start, [Root], TextElement(PatchIdName, body.patchId));

    if body.ok {
      writer.WriteEmptyElement(OkName);
      assert writer.events == opening + StatusChildren(body);
    } else {
      var globalErrors := body.globalErrors;
      if globalErrors.Some? {
        ReportErrors(globalErrors.value, writer);
        assert writer.events == opening + StatusChildren(body);
      } else {
        var edits := body.editCollection;
        writer.WriteStartElement(EditStatusName);
        for i := 0 to |edits|
          invariant writer.events == opening + [Start(EditStatusName)] + Concat(EditElement, edits[..i])
        {
          var patchStatusEntity := edits[i];
          ghost var before := writer.events;
          WriteEdit(writer, patchStatusEntity);
          ConcatExtend(EditElement, edits, i, opening + [Start(EditStatusName)], before, writer.events);
        }
        writer.WriteEndElement();
        assert edits[..|edits|] == edits;
        Associate4(opening, [Start(EditStatusName)], Concat(EditElement, edits), [EndElement]);
        Associate3([Start(EditStatusName)], Concat(EditElement, edits), [EndElement]);
      }
    }
    assert writer.events == opening + children;
    writer.WriteEndElement();
    Associate4(start, head, children, [EndElement]);
    Associate3(head, children, [EndElement]);
  }

  /** The body of the loop over the edits: one `edit` element, its errors taking precedence over `ok`. */
  method WriteEdit(writer: XmlStreamWriter, patchStatusEntity: PatchStatusEntity)
    modifies writer
    ensures writer.events == old(writer.events) + EditElement(patchStatusEntity)
  {
    ghost var start := writer.events;
    writer.WriteStartElement(EditName);
    WriteTextElement(writer, EditIdName, patchStatusEntity.editId);
    ghost var opening := writer.events;

    var editErrors := patchStatusEntity.editErrors;
    if editErrors.Some? {
      ReportErrors(editErrors.value, writer);
    } else if patchStatusEntity.isOk {
      writer.WriteEmptyElement(OkName);
    }
    assert writer.events == opening + EditOutcome(patchStatusEntity);
    writer.WriteEndElement();
    Associate5(start, [Start(EditName)], TextElement(EditIdName, patchStatusEntity.editId), EditOutcome(patchStatusEntity), [EndElement]);
    Associate4([Start(EditName)], TextElement(EditIdName, patchStatusEntity.editId), EditOutcome(patchStatusEntity), [EndElement]);
  }

  method ReportErrors(errors: seq<RestconfError>, writer: XmlStreamWriter)
    modifies writer
    ensures writer.events == old(writer.events) + ErrorsElement(errors)
  {
    ghost var start := writer.events;
    writer.WriteStartElement(ErrorsName);
    for i := 0 to |errors|
      invariant writer.events == start + [Start(ErrorsName)] + Concat(ErrorFields, errors[..i])
    {
      var restconfError := errors[i];
      ghost var before := writer.events;
      WriteError(writer, restconfError);
      ConcatExtend(ErrorFields, errors, i, start + [Start(ErrorsName)], before, writer.events);
    }
    assert errors[..|errors|] == errors;
    writer.WriteEndElement();
    Associate4(start, [Start(ErrorsName)], Concat(ErrorFields, errors), [EndElement]);
    Associate3([Start(ErrorsName)], Concat(ErrorFields, errors), [EndElement]);
  }

  /** The body of the loop over the errors: the fields of one error, the optional ones only when set. */
  method WriteError(writer: XmlStreamWriter, restconfError: RestconfError)
    modifies writer
    ensures writer.events == old(writer.events) + ErrorFields(restconfError)
  {
    ghost var start := writer.events;
    WriteTextElement(writer, ErrorTypeName, restconfError.errorType.ElementBody());
    WriteTextElement(writer, ErrorTagName, restconfError.errorTag.elementBody);
    ghost var written := TextElement(ErrorTypeName, restconfError.errorType.ElementBody())
      + TextElement(ErrorTagName, restconfError.errorTag.elementBody);
    Associate3(start, TextElement(ErrorTypeName, restconfError.errorType.ElementBody()),
      TextElement(ErrorTagName, restconfError.errorTag.elementBody));

    // optional node
    var errorPath := restconfError.errorPath;
    ghost var before := writer.events;
    if errorPath.Some? {
      writer.WriteStartElement(ErrorPathName);
      WriteInstanceIdentifier(writer, errorPath.value);
      writer.WriteEndElement();
      Associate4(before, [Start(ErrorPathName)], [InstanceIdentifierText(errorPath.value)], [EndElement]);
    }
    Associate3(start, written, ErrorPathElement(errorPath));
    written := written + ErrorPathElement(errorPath);

    // optional node
    var errorMessage := restconfError.errorMessage;
    if errorMessage.Some? {
      WriteTextElement(writer, ErrorMessageName, errorMessage.value);
    }
    Associate3(start, written, OptionalTextElement(ErrorMessageName, errorMessage));
    written := written + OptionalTextElement(ErrorMessageName, errorMessage);

    // optional node
    var errorInfo := restconfError.errorInfo;
    if errorInfo.Some? {
      WriteTextElement(writer, ErrorInfoName, errorInfo.value);
    }
    Associate3(start, written, OptionalTextElement(ErrorInfoName, errorInfo));
    written := written + OptionalTextElement(ErrorInfoName, errorInfo);
  }

  // ---------------------------------------------------------------------------------------------
  // Nesting: every start element is closed by an end element, innermost first

  datatype ElementKind = Element

  function XmlBracket(e: XmlEvent): Bracket<ElementKind> {
    match e
    case StartElement(_, _) => Open(Element)
    case EndElement => Close(Element)
    case _ => Flat
  }

  lemma TextElementBalanced(name: ElementName, text: string)
    ensures Balanced(XmlBracket, TextElement(name, text))
  {
    BalancedFlat(XmlBracket, [Characters(text)]);
    BalancedWrap(XmlBracket, Start(name), [Characters(text)], EndElement);
    assert [Start(name)] + [Characters(text)] + [EndElement] == TextElement(name, text);
  }

  lemma ErrorFieldsBalanced(e: RestconfError)
    ensures Balanced(XmlBracket, ErrorFields(e))
  {
    TextElementBalanced(ErrorTypeName, e.errorType.ElementBody());
    TextElementBalanced(ErrorTagName, e.errorTag.elementBody);
    var path := ErrorPathElement(e.errorPath);
    if e.errorPath.Some? {
      BalancedFlat(XmlBracket, [InstanceIdentifierText(e.errorPath.value)]);
      BalancedWrap(XmlBracket, Start(ErrorPathName), [InstanceIdentifierText(e.errorPath.value)], EndElement);
      assert path == [Start(ErrorPathName)] + [InstanceIdentifierText(e.errorPath.value)] + [EndElement];
    } else {
      BalancedFlat(XmlBracket, path);
    }
    var message := OptionalTextElement(ErrorMessageName, e.errorMessage);
    var info := OptionalTextElement(ErrorInfoName, e.errorInfo);
    if e.errorMessage.Some? { TextElementBalanced(ErrorMessageName, e.errorMessage.value); } else { BalancedFlat(XmlBracket, message); }
    if e.errorInfo.Some? { TextElementBalanced(ErrorInfoName, e.errorInfo.value); } else { BalancedFlat(XmlBracket, info); }
    BalancedAppend3(XmlBracket, TextElement(ErrorTypeName, e.errorType.ElementBody()), TextElement(ErrorTagName, e.errorTag.elementBody), path);
    BalancedAppend3(XmlBracket, TextElement(ErrorTypeName, e.errorType.ElementBody()) + TextElement(ErrorTagName, e.errorTag.elementBody) + path, message, info);
  }

  lemma ErrorsElementBalanced(errors: seq<RestconfError>)
    ensures Balanced(XmlBracket, ErrorsElement(errors))
  {
    forall e | e in errors ensures Balanced(XmlBracket, ErrorFields(e)) {
      ErrorFieldsBalanced(e);
    }
    BalancedConcat(XmlBracket, ErrorFields, errors);
    BalancedWrap(XmlBracket, Start(ErrorsName), Concat(ErrorFields, errors), EndElement);
  }

  lemma EditElementBalanced(e: PatchStatusEntity)
    ensures Balanced(XmlBracket, EditElement(e))
  {
    TextElementBalanced(EditIdName, e.editId);
    if e.editErrors.Some? {
      ErrorsElementBalanced(e.editErrors.value);
    } else {
      BalancedFlat(XmlBracket, EditOutcome(e));
    }
    BalancedAppend(XmlBracket, TextElement(EditIdName, e.editId), EditOutcome(e));
    BalancedWrap(XmlBracket, Start(EditName), TextElement(EditIdName, e.editId) + EditOutcome(e), EndElement);
    Associate3([Start(EditName)], TextElement(EditIdName, e.editId), EditOutcome(e));
  }

  lemma StatusChildrenBalanced(b: PatchStatusContext)
    ensures Balanced(XmlBracket, StatusChildren(b))
  {
    if b.ok {
      BalancedFlat(XmlBracket, StatusChildren(b));
    } else if b.globalErrors.Some? {
      ErrorsElementBalanced(b.globalErrors.value);
    } else {
      forall e | e in b.editCollection ensures Balanced(XmlBracket, EditElement(e)) {
        EditElementBalanced(e);
      }
      BalancedConcat(XmlBracket, EditElement, b.editCollection);
      BalancedWrap(XmlBracket, Start(EditStatusName), Concat(EditElement, b.editCollection), EndElement);
    }
  }

  /**
   * The document is one element: the root opens it, the root's end element closes it, and what lies
   * between closes everything it opens; so the document as a whole is well nested.
   */
  lemma DocumentWellNested(b: PatchStatusContext)
    ensures Document(b) == [Root] + (TextElement(PatchIdName, b.patchId) + StatusChildren(b)) + [EndElement]
    ensures Balanced(XmlBracket, TextElement(PatchIdName, b.patchId) + StatusChildren(b))
    ensures WellNested(XmlBracket, Document(b))
  {
    TextElementBalanced(PatchIdName, b.patchId);
    StatusChildrenBalanced(b);
    BalancedAppend(XmlBracket, TextElement(PatchIdName, b.patchId), StatusChildren(b));
    BalancedWrap(XmlBracket, Root, TextElement(PatchIdName, b.patchId) + StatusChildren(b), EndElement);
    Associate3([Root], TextElement(PatchIdName, b.patchId), StatusChildren(b));
    BalancedIsWellNested(XmlBracket, Document(b));
  }

  // ---------------------------------------------------------------------------------------------
  // The shape of the document

  /** The document opens with the root in the ietf-yang-patch namespace, then `patch-id` holding the patch id. */
  lemma DocumentOpening(b: PatchStatusContext)
    ensures |Document(b)| >= 5
    ensures Document(b)[0] == StartElement(YangPatchStatusName, Some(Namespace("", YangPatchNamespace)))
    ensures Document(b)[1..4] == [Start(PatchIdName), Characters(b.patchId), EndElement]
    ensures Document(b)[|Document(b)| - 1] == EndElement
  {
  }

  /** On success the only child after `patch-id` is an empty `ok`: no errors and no edit status. */
  lemma OkDocument(b: PatchStatusContext)
    requires b.ok
    ensures Document(b) == [Root] + TextElement(PatchIdName, b.patchId) + [EmptyElement(OkName), EndElement]
    ensures Start(ErrorsName) !in Document(b) && Start(EditStatusName) !in Document(b)
  {
  }

  /** The fields of errors never hold the elements that belong to success or to the edit status. */
  lemma ErrorFieldsExclude(errors: seq<RestconfError>)
    ensures Start(EditStatusName) !in Concat(ErrorFields, errors)
    ensures Start(EditName) !in Concat(ErrorFields, errors)
    ensures EmptyElement(OkName) !in Concat(ErrorFields, errors)
  {
    forall x | x in errors
      ensures Start(EditStatusName) !in ErrorFields(x) && Start(EditName) !in ErrorFields(x)
      ensures EmptyElement(OkName) !in ErrorFields(x)
    {
    }
    ConcatExcludes(ErrorFields, errors, Start(EditStatusName));
    ConcatExcludes(ErrorFields, errors, Start(EditName));
    ConcatExcludes(ErrorFields, errors, EmptyElement(OkName));
  }

  /** Global errors are reported in an `errors` element after `patch-id`, and then no edit status is written. */
  lemma GlobalErrorsDocument(b: PatchStatusContext)
    requires !b.ok && b.globalErrors.Some?
    ensures Document(b)[4] == Start(ErrorsName)
    ensures Start(EditStatusName) !in Document(b) && Start(EditName) !in Document(b)
    ensures EmptyElement(OkName) !in Document(b)
  {
    var errors := b.globalErrors.value;
    ErrorFieldsExclude(errors);
    var head := [Root] + TextElement(PatchIdName, b.patchId);
    var tail := Concat(ErrorFields, errors) + ([EndElement] + [EndElement]);
    Associate3(head, ErrorsElement(errors), [EndElement]);
    Associate4([Start(ErrorsName)], Concat(ErrorFields, errors), [EndElement], [EndElement]);
    assert Document(b) == head + ([Start(ErrorsName)] + tail);
    assert |head| == 4;
    assert Start(EditStatusName) !in head && Start(EditName) !in head && EmptyElement(OkName) !in head;
    assert Start(EditStatusName) !in tail && Start(EditName) !in tail && EmptyElement(OkName) !in tail;
  }

  /** Without success or global errors, the child after `patch-id` is `edit-status`, and no `ok` follows `patch-id`. */
  lemma EditStatusDocument(b: PatchStatusContext)
    requires !b.ok && b.globalErrors.None?
    ensures Document(b)[4] == Start(EditStatusName)
    ensures Document(b)[5..] == Concat(EditElement, b.editCollection) + [EndElement, EndElement]
  {
  }

  /**
   * One edit: `edit` opens with `edit-id`; errors take precedence over success, and with neither the
   * edit holds `edit-id` alone.
   */
  lemma EditElementShape(e: PatchStatusEntity)
    ensures EditElement(e)[..4] == [Start(EditName), Start(EditIdName), Characters(e.editId), EndElement]
    ensures e.editErrors.Some? ==> EditElement(e)[4] == Start(ErrorsName) && EmptyElement(OkName) !in EditElement(e)
    ensures e.editErrors.None? && e.isOk ==> EditElement(e)[4..] == [EmptyElement(OkName), EndElement]
    ensures e.editErrors.None? && !e.isOk ==> EditElement(e)[4..] == [EndElement]
  {
    var head := [Start(EditName)] + TextElement(EditIdName, e.editId);
    Associate3(head, EditOutcome(e), [EndElement]);
    assert EditElement(e)[..4] == head && EditElement(e)[4..] == EditOutcome(e) + [EndElement];
    if e.editErrors.Some? {
      ErrorFieldsExclude(e.editErrors.value);
    }
  }

  /**
   * Each error writes `error-type`, then `error-tag`, and an `error-path`, `error-message` or
   * `error-info` element exactly when that field is set.
   */
  lemma ErrorFieldsShape(e: RestconfError)
    ensures ErrorFields(e)[..6] == TextElement(ErrorTypeName, e.errorType.ElementBody()) + TextElement(ErrorTagName, e.errorTag.elementBody)
    ensures Start(ErrorPathName) in ErrorFields(e) <==> e.errorPath.Some?
    ensures Start(ErrorMessageName) in ErrorFields(e) <==> e.errorMessage.Some?
    ensures Start(ErrorInfoName) in ErrorFields(e) <==> e.errorInfo.Some?
  {
    var typeAndTag := TextElement(ErrorTypeName, e.errorType.ElementBody()) + TextElement(ErrorTagName, e.errorTag.elementBody);
    Associate4(typeAndTag, ErrorPathElement(e.errorPath), OptionalTextElement(ErrorMessageName, e.errorMessage),
      OptionalTextElement(ErrorInfoName, e.errorInfo));
  }

  // ---------------------------------------------------------------------------------------------
  // Reading the document back: nothing the status reports is lost or ambiguous

  function ParseEnd(events: seq<XmlEvent>): (r: Option<seq<XmlEvent>>)
    ensures r.Some? ==> |r.value| < |events|
  {
    if |events| > 0 && events[0] == EndElement then Some(events[1..]) else None
  }

  function ParseText(events: seq<XmlEvent>, name: ElementName): (r: Option<(string, seq<XmlEvent>)>)
    ensures r.Some? ==> |r.value.1| < |events|
  {
    if |events| >= 3 && events[0] == Start(name) && events[1].Characters? && events[2] == EndElement
    then Some((events[1].text, events[3..]))
    else None
  }

  function ParseOptionalText(events: seq<XmlEvent>, name: ElementName): (r: Option<(Option<string>, seq<XmlEvent>)>)
    ensures r.Some? ==> |r.value.1| <= |events|
  {
    if |events| > 0 && events[0] == Start(name) then
      var t :- ParseText(events, name);
      Some((Some(t.0), t.1))
    else Some((None, events))
  }

  function ParseErrorPath(events: seq<XmlEvent>): (r: Option<(Option<InstanceIdentifier>, seq<XmlEvent>)>)
    ensures r.Some? ==> |r.value.1| <= |events|
  {
    if |events| > 0 && events[0] == Start(ErrorPathName) then
      if |events| >= 3 && events[1].InstanceIdentifierText? && events[2] == EndElement
      then Some((Some(events[1].path), events[3..]))
      else None
    else Some((None, events))
  }

  function ParseError(events: seq<XmlEvent>): (r: Option<(RestconfError, seq<XmlEvent>)>)
    ensures r.Some? ==> |r.value.1| < |events|
  {
    var t :- ParseText(events, ErrorTypeName);
    var errorType :- ErrorTypeOf(t.0);
    var g :- ParseText(t.1, ErrorTagName);
    var p :- ParseErrorPath(g.1);
    var m :- ParseOptionalText(p.1, ErrorMessageName);
    var i :- ParseOptionalText(m.1, ErrorInfoName);
    Some((RestconfError(errorType, ErrorTag(g.0), p.0, m.0, i.0), i.1))
  }

  /** Errors follow one another, each starting with `error-type`, until some other event. */
  function ParseErrorSeq(events: seq<XmlEvent>): (r: Option<(seq<RestconfError>, seq<XmlEvent>)>)
    ensures r.Some? ==> |r.value.1| <= |events|
    decreases |events|
  {
    if |events| > 0 && events[0] == Start(ErrorTypeName) then
      var e :- ParseError(events);
      var es :- ParseErrorSeq(e.1);
      Some(([e.0] + es.0, es.1))
    else Some(([], events))
  }

  function ParseErrors(events: seq<XmlEvent>): (r: Option<(seq<RestconfError>, seq<XmlEvent>)>)
    ensures r.Some? ==> |r.value.1| < |events|
  {
    if |events| > 0 && events[0] == Start(ErrorsName) then
      var es :- ParseErrorSeq(events[1..]);
      var rest :- ParseEnd(es.1);
      Some((es.0, rest))
    else None
  }

  function ParseEditReport(events: seq<XmlEvent>): (r: Option<(EditReport, seq<XmlEvent>)>)
    ensures r.Some? ==> |r.value.1| <= |events|
  {
    if |events| > 0 && events[0] == Start(ErrorsName) then
      var es :- ParseErrors(events);
      Some((EditErrors(es.0), es.1))
    else if |events| > 0 && events[0] == EmptyElement(OkName) then Some((EditOk, events[1..]))
    else Some((EditNoStatus, events))
  }

  function ParseEdit(events: seq<XmlEvent>): (r: Option<(EditView, seq<XmlEvent>)>)
    ensures r.Some? ==> |r.value.1| < |events|
  {
    if |events| > 0 && events[0] == Start(EditName) then
      var id :- ParseText(events[1..], EditIdName);
      var report :- ParseEditReport(id.1);
      var rest :- ParseEnd(report.1);
      Some((EditView(id.0, report.0), rest))
    else None
  }

  function ParseEditSeq(events: seq<XmlEvent>): (r: Option<(seq<EditView>, seq<XmlEvent>)>)
    ensures r.Some? ==> |r.value.1| <= |events|
    decreases |events|
  {
    if |events| > 0 && events[0] == Start(EditName) then
      var e :- ParseEdit(events);
      var es :- ParseEditSeq(e.1);
      Some(([e.0] + es.0, es.1))
    else Some(([], events))
  }

  function ParseStatusChildren(events: seq<XmlEvent>): (r: Option<(StatusReport, seq<XmlEvent>)>)
  {
    if |events| > 0 && events[0] == EmptyElement(OkName) then Some((GlobalOk, events[1..]))
    else if |events| > 0 && events[0] == Start(ErrorsName) then
      var es :- ParseErrors(events);
      Some((GlobalErrors(es.0), es.1))
    else if |events| > 0 && events[0] == Start(EditStatusName) then
      var es :- ParseEditSeq(events[1..]);
      var rest :- ParseEnd(es.1);
      Some((EditStatus(es.0), rest))
    else None
  }

  /** Reads a whole document; `None` unless the events are exactly one `yang-patch-status` element. */
  function ParseDocument(events: seq<XmlEvent>): Option<StatusView>
  {
    if |events| > 0 && events[0] == Root then
      var id :- ParseText(events[1..], PatchIdName);
      var report :- ParseStatusChildren(id.1);
      if report.1 == [EndElement] then Some(StatusView(id.0, report.0)) else None
    else None
  }

  lemma ParseTextRoundTrip(name: ElementName, text: string, rest: seq<XmlEvent>)
    ensures ParseText(TextElement(name, text) + rest, name) == Some((text, rest))
  {
    assert (TextElement(name, text) + rest)[3..] == rest;
  }

  lemma ParseOptionalTextRoundTrip(name: ElementName, text: Option<string>, rest: seq<XmlEvent>)
    requires rest == [] || rest[0] != Start(name)
    ensures ParseOptionalText(OptionalTextElement(name, text) + rest, name) == Some((text, rest))
  {
    if text.Some? {
      ParseTextRoundTrip(name, text.value, rest);
    } else {
      assert OptionalTextElement(name, text) + rest == rest;
    }
  }

  lemma ParseErrorPathRoundTrip(path: Option<InstanceIdentifier>, rest: seq<XmlEvent>)
    requires rest == [] || rest[0] != Start(ErrorPathName)
    ensures ParseErrorPath(ErrorPathElement(path) + rest) == Some((path, rest))
  {
    if path.Some? {
      assert (ErrorPathElement(path) + rest)[3..] == rest;
    } else {
      assert ErrorPathElement(path) + rest == rest;
    }
  }

  /** Reading one error's fields gives the error back, provided what follows is the end of `errors` or the next error. */
  lemma ParseErrorRoundTrip(e: RestconfError, rest: seq<XmlEvent>)
    requires rest == [] || rest[0] == EndElement || rest[0] == Start(ErrorTypeName)
    ensures ParseError(ErrorFields(e) + rest) == Some((e, rest))
  {
    var info := OptionalTextElement(ErrorInfoName, e.errorInfo);
    var message := OptionalTextElement(ErrorMessageName, e.errorMessage);
    var path := ErrorPathElement(e.errorPath);
    var tag := TextElement(ErrorTagName, e.errorTag.elementBody);
    var afterMessage := info + rest;
    var afterPath := message + afterMessage;
    var afterTag := path + afterPath;
    var afterType := tag + afterTag;
    var typ := TextElement(ErrorTypeName, e.errorType.ElementBody());
    Associate5(typ + tag, path, message, info, rest);
    Associate3(typ, tag, afterTag);
    ParseTextRoundTrip(ErrorTypeName, e.errorType.ElementBody(), afterType);
    ErrorTypeRoundTrip(e.errorType);
    ParseTextRoundTrip(ErrorTagName, e.errorTag.elementBody, afterTag);
    ParseErrorPathRoundTrip(e.errorPath, afterPath);
    ParseOptionalTextRoundTrip(ErrorMessageName, e.errorMessage, afterMessage);
    ParseOptionalTextRoundTrip(ErrorInfoName, e.errorInfo, rest);
  }

  lemma {:induction false} ParseErrorSeqRoundTrip(errors: seq<RestconfError>, rest: seq<XmlEvent>)
    requires rest == [] || rest[0] == EndElement
    ensures ParseErrorSeq(Concat(ErrorFields, errors) + rest) == Some((errors, rest))
    decreases |errors|
  {
    if errors == [] {
      assert Concat(ErrorFields, errors) + rest == rest;
    } else {
      var tail := Concat(ErrorFields, errors[1..]) + rest;
      Associate3(ErrorFields(errors[0]), Concat(ErrorFields, errors[1..]), rest);
      if errors[1..] != [] {
        assert tail[0] == ErrorFields(errors[1..][0])[0];
      }
      ParseErrorRoundTrip(errors[0], tail);
      ParseErrorSeqRoundTrip(errors[1..], rest);
      assert [errors[0]] + errors[1..] == errors;
    }
  }

  lemma ParseErrorsRoundTrip(errors: seq<RestconfError>, rest: seq<XmlEvent>)
    ensures ParseErrors(ErrorsElement(errors) + rest) == Some((errors, rest))
  {
    var s := ErrorsElement(errors) + rest;
    Associate4([Start(ErrorsName)], Concat(ErrorFields, errors), [EndElement], rest);
    assert s[1..] == Concat(ErrorFields, errors) + ([EndElement] + rest);
    ParseErrorSeqRoundTrip(errors, [EndElement] + rest);
    assert ([EndElement] + rest)[1..] == rest;
  }

  lemma ParseEditOutcomeRoundTrip(e: PatchStatusEntity, rest: seq<XmlEvent>)
    requires rest == [] || rest[0] == EndElement
    ensures ParseEditReport(EditOutcome(e) + rest) == Some((EditViewOf(e).report, rest))
  {
    if e.editErrors.Some? {
      ParseErrorsRoundTrip(e.editErrors.value, rest);
    } else if e.isOk {
      assert (EditOutcome(e) + rest)[1..] == rest;
    } else {
      assert EditOutcome(e) + rest == rest;
    }
  }

  lemma ParseEditRoundTrip(e: PatchStatusEntity, rest: seq<XmlEvent>)
    ensures ParseEdit(EditElement(e) + rest) == Some((EditViewOf(e), rest))
  {
    var end := [EndElement] + rest;
    var afterId := EditOutcome(e) + end;
    assert (EditElement(e) + rest)[1..] == TextElement(EditIdName, e.editId) + afterId;
    ParseTextRoundTrip(EditIdName, e.editId, afterId);
    ParseEditOutcomeRoundTrip(e, end);
    assert end[1..] == rest;
  }

  lemma {:induction false} ParseEditSeqRoundTrip(edits: seq<PatchStatusEntity>, rest: seq<XmlEvent>)
    requires rest == [] || rest[0] == EndElement
    ensures ParseEditSeq(Concat(EditElement, edits) + rest) == Some((EditViews(edits), rest))
    decreases |edits|
  {
    if edits == [] {
      assert Concat(EditElement, edits) + rest == rest;
    } else {
      var tail := Concat(EditElement, edits[1..]) + rest;
      assert Concat(EditElement, edits) + rest == EditElement(edits[0]) + tail;
      ParseEditRoundTrip(edits[0], tail);
      if edits[1..] != [] {
        assert tail[0] == EditElement(edits[1..][0])[0];
      }
      ParseEditSeqRoundTrip(edits[1..], rest);
    }
  }

  /**
   * Reading the document back gives exactly the report the status stands for: the patch id, and
   * success, the global errors, or every edit in order with its errors, its success or nothing.
   */
  lemma StatusChildrenRoundTrip(b: PatchStatusContext)
    ensures ParseStatusChildren(StatusChildren(b) + [EndElement]) == Some((ViewOf(b).report, [EndElement]))
  {
    if b.ok {
      assert (StatusChildren(b) + [EndElement])[1..] == [EndElement];
    } else if b.globalErrors.Some? {
      ParseErrorsRoundTrip(b.globalErrors.value, [EndElement]);
    } else {
      var edits := b.editCollection;
      assert (StatusChildren(b) + [EndElement])[1..] == Concat(EditElement, edits) + [EndElement, EndElement];
      ParseEditSeqRoundTrip(edits, [EndElement, EndElement]);
      assert [EndElement, EndElement][1..] == [EndElement];
    }
  }

  /**
   * Reading the document back gives exactly the report the status stands for: the patch id, and
   * success, the global errors, or every edit in order with its errors, its success or nothing.
   */
  lemma DocumentRoundTrip(b: PatchStatusContext)
    ensures ParseDocument(Document(b)) == Some(ViewOf(b))
  {
    var children := StatusChildren(b) + [EndElement];
    assert Document(b)[1..] == TextElement(PatchIdName, b.patchId) + children;
    ParseTextRoundTrip(PatchIdName, b.patchId, children);
    StatusChildrenRoundTrip(b);
  }
}
