# RESTCONF northbound core, modelled in Dafny

This project models four pieces of the OpenDaylight RESTCONF northbound server and proves what
they promise:

- **Query parameters** (`QueryParams`): every parameter may appear at most once (section 4.8 of
  RFC 8040). A write accepts only `insert` and `point`. A notification subscription accepts
  `start-time`, `stop-time`, `filter` and the vendor flag `odl-skip-notification-data`. The two
  loops over the request's entries are methods with loop invariants. Each is proved equal to a
  recursive specification of the same loop, including its `break` and its early exceptions.
- **The YANG Patch status response** (section 2.3 of RFC 8072), in XML
  (`XmlPatchStatusBodyWriter`) and in JSON (`JsonPatchStatusBodyWriter`). Each body writer drives
  a writer class that records every call it receives. The writer methods are proved to emit exactly
  a document function of the patch status. The model then proves the following about that function:
  - the XML elements, and the JSON objects and arrays, are well nested;
  - the three outcomes (success, global errors, per-edit status) exclude one another;
  - the edits appear in order, and an edit's errors take precedence over its success flag;
  - the optional error fields appear exactly when they are set;
  - decoding the document gives back exactly the report the patch status stands for.
  Both formats decode to the same report.
- **`subscribe-device-notification`** (`SubscribeDeviceNotificationRpc`): an ordered ladder of
  checks on the `path` leaf, each failure with its own error type and tag. Then the path is
  canonized, a stream is registered, and the output holds the stream's name.

Parts the code relies on but does not define are function parameters: the parameter value
factories, the `of` combinations, the canonizer, the stream registry, and the way paths are
printed. A factory's IllegalArgumentException is the `Err` of its result.

The XML form writes each error's fields directly inside `errors`, with no `error` element per
error. The JSON form wraps each error in an object of the `error` array. The model keeps both as
written, and the XML decoder reads the fields back unwrapped.

## Model

| member | source | states |
|---|---|---|
| QueryParams.OptionalParam | restconf/restconf-nb-rfc8040/src/main/java/org/opendaylight/restconf/nb/rfc8040/databind/jaxrs/QueryParams.java:113-123 | Succeeds exactly when at most one value is given. It is present exactly when a value is given, and then the list is that one value. Otherwise it fails with PROTOCOL/INVALID_VALUE "Parameter <name> can appear at most once in request URI" |
| QueryParams.OptionalParamWith | restconf/restconf-nb-rfc8040/src/main/java/org/opendaylight/restconf/nb/rfc8040/databind/jaxrs/QueryParams.java:125-129 | The at-most-once error propagates and an absent value stays absent. For a single value the result is exactly what the factory made of it, or an IllegalArgumentException carrying the factory's rejection message; conversely every present result and every IllegalArgumentException comes from a single value |
| QueryParams.FactoryOnlyForPresentValue | restconf/restconf-nb-rfc8040/src/main/java/org/opendaylight/restconf/nb/rfc8040/databind/jaxrs/QueryParams.java:125-129 | Without exactly one value the factory is never applied: any two factories give the same result |
| QueryParams.GetSingleParameter | restconf/restconf-nb-rfc8040/src/main/java/org/opendaylight/restconf/nb/rfc8040/databind/jaxrs/QueryParams.java:108-111 | Absent when the name is not a key or has no value. Present only with the key's single value. Fails exactly when the key has two or more values, and then with the at-most-once error naming the parameter. For a present key it is the single-value rule applied to the key's list |
| QueryParams.ParseBoolean | restconf/restconf-nb-rfc8040/src/main/java/org/opendaylight/restconf/nb/rfc8040/databind/jaxrs/QueryParams.java:58 | True exactly for a present four-character value whose every character is the matching letter of "true" in lower or upper case; an absent value is false |
| QueryParams.ParseBooleanExamples | restconf/restconf-nb-rfc8040/src/main/java/org/opendaylight/restconf/nb/rfc8040/databind/jaxrs/QueryParams.java:58 | "true" in any case is true; "false", "yes", "1", "true " and "" are false |
| QueryParams.NewNotificationQueryParams | restconf/restconf-nb-rfc8040/src/main/java/org/opendaylight/restconf/nb/rfc8040/databind/jaxrs/QueryParams.java:37-72 | The loop with its `break` and early exceptions returns exactly the specified result: the loop's failure, or the combination of the collected locals |
| QueryParams.ScanNotificationAppend | restconf/restconf-nb-rfc8040/src/main/java/org/opendaylight/restconf/nb/rfc8040/databind/jaxrs/QueryParams.java:43-65 | Running the loop over two parts runs the second part only if the first leaves the loop running |
| QueryParams.AfterPrefix | restconf/restconf-nb-rfc8040/src/main/java/org/opendaylight/restconf/nb/rfc8040/databind/jaxrs/QueryParams.java:43-65 | Once the earlier entries leave the loop running, the result is decided from the next entry on; an entry that stops or fails the loop is the last one read |
| QueryParams.StopsAtStartOrStopTime | restconf/restconf-nb-rfc8040/src/main/java/org/opendaylight/restconf/nb/rfc8040/databind/jaxrs/QueryParams.java:48-53 | After the first `start-time` or `stop-time`, later entries are neither read nor rejected: changing them does not change the result |
| QueryParams.UnknownNotificationParameter | restconf/restconf-nb-rfc8040/src/main/java/org/opendaylight/restconf/nb/rfc8040/databind/jaxrs/QueryParams.java:59-61 | An unknown name reached by the loop fails with "Bad parameter used with notifications: <name>" |
| QueryParams.RepeatedNotificationParameter | restconf/restconf-nb-rfc8040/src/main/java/org/opendaylight/restconf/nb/rfc8040/databind/jaxrs/QueryParams.java:47-64 | A known subscription parameter with two or more values fails with PROTOCOL/INVALID_VALUE, not rewrapped by the catch |
| QueryParams.InvalidNotificationValue | restconf/restconf-nb-rfc8040/src/main/java/org/opendaylight/restconf/nb/rfc8040/databind/jaxrs/QueryParams.java:47-64 | A value rejected by the start-time, stop-time or filter factory fails with "Invalid <name> value: <message>" |
| QueryParams.SkipNotificationDataStep | restconf/restconf-nb-rfc8040/src/main/java/org/opendaylight/restconf/nb/rfc8040/databind/jaxrs/QueryParams.java:56-58 | The flag entry keeps the loop running and sets the flag to true exactly when its single value equals "true" ignoring case |
| QueryParams.ScanKeepsSkipNotificationData | restconf/restconf-nb-rfc8040/src/main/java/org/opendaylight/restconf/nb/rfc8040/databind/jaxrs/QueryParams.java:43-65 | Entries other than the flag never change it |
| QueryParams.SkipNotificationDataDefaultsFalse | restconf/restconf-nb-rfc8040/src/main/java/org/opendaylight/restconf/nb/rfc8040/databind/jaxrs/QueryParams.java:41-65 | Without a flag entry, the flag handed to the combination is false |
| QueryParams.InvalidNotificationCombination | restconf/restconf-nb-rfc8040/src/main/java/org/opendaylight/restconf/nb/rfc8040/databind/jaxrs/QueryParams.java:67-71 | A combination that throws fails with "Invalid query parameters: <message>" |
| QueryParams.NewWriteDataParams | restconf/restconf-nb-rfc8040/src/main/java/org/opendaylight/restconf/nb/rfc8040/databind/jaxrs/QueryParams.java:74-106 | The loop with its early exceptions returns exactly the specified result: the loop's failure, or the combination of insert and point |
| QueryParams.ScanWriteAppend | restconf/restconf-nb-rfc8040/src/main/java/org/opendaylight/restconf/nb/rfc8040/databind/jaxrs/QueryParams.java:78-99 | Running the write loop over two parts runs the second only if the first succeeds |
| QueryParams.WriteStepFailure | restconf/restconf-nb-rfc8040/src/main/java/org/opendaylight/restconf/nb/rfc8040/databind/jaxrs/QueryParams.java:78-99 | The first entry whose step fails decides the result, whatever follows it |
| QueryParams.UnknownWriteParameter | restconf/restconf-nb-rfc8040/src/main/java/org/opendaylight/restconf/nb/rfc8040/databind/jaxrs/QueryParams.java:95-97 | A name other than `insert` and `point` fails with PROTOCOL/BAD_ELEMENT "Bad parameter for post: <name>" |
| QueryParams.UnrecognizedInsertValue | restconf/restconf-nb-rfc8040/src/main/java/org/opendaylight/restconf/nb/rfc8040/databind/jaxrs/QueryParams.java:81-89 | An `insert` value the factory does not recognise fails with PROTOCOL/BAD_ELEMENT "Unrecognized insert parameter value '<value>'" |
| QueryParams.RepeatedWriteParameter | restconf/restconf-nb-rfc8040/src/main/java/org/opendaylight/restconf/nb/rfc8040/databind/jaxrs/QueryParams.java:81-94 | `insert` or `point` with two or more values fails with PROTOCOL/INVALID_VALUE |
| QueryParams.PointFailureEscapes | restconf/restconf-nb-rfc8040/src/main/java/org/opendaylight/restconf/nb/rfc8040/databind/jaxrs/QueryParams.java:90-94 | The point factory's IllegalArgumentException leaves the method as it is, with no wrapping |
| QueryParams.ScanWriteKeepsUnset | restconf/restconf-nb-rfc8040/src/main/java/org/opendaylight/restconf/nb/rfc8040/databind/jaxrs/QueryParams.java:75-94 | Without an entry that gives `insert` (or `point`) a value, that local keeps its value |
| QueryParams.EmptyQueryWrite | restconf/restconf-nb-rfc8040/src/main/java/org/opendaylight/restconf/nb/rfc8040/databind/jaxrs/QueryParams.java:75-102 | With no entries the combination receives a null insert and a null point |
| QueryParams.InvalidWriteCombination | restconf/restconf-nb-rfc8040/src/main/java/org/opendaylight/restconf/nb/rfc8040/databind/jaxrs/QueryParams.java:101-105 | A combination that throws fails with "Invalid query parameters: <message>" |
| PatchStatus.EditViewOf | restconf/restconf-nb/src/main/java/org/opendaylight/restconf/nb/rfc8040/jersey/providers/XmlPatchStatusBodyWriter.java:67-72 | An edit keeps its id and reports exactly its own errors when it has them, success only without errors, and nothing otherwise |
| PatchStatus.EditViews | restconf/restconf-nb/src/main/java/org/opendaylight/restconf/nb/rfc8040/jersey/providers/XmlPatchStatusBodyWriter.java:61-74 | One report per edit, in collection order |
| PatchStatus.ViewOf | restconf/restconf-nb/src/main/java/org/opendaylight/restconf/nb/rfc8040/jersey/providers/XmlPatchStatusBodyWriter.java:53-77 | Exactly one outcome is reported: success when ok, else the global errors when present, else the edits |
| Errors.ErrorTypeOf | restconf/restconf-nb/src/main/java/org/opendaylight/restconf/nb/rfc8040/jersey/providers/XmlPatchStatusBodyWriter.java:87-89 | Reads an `error-type` body only back to a type written as that body |
| Errors.ErrorTypeRoundTrip | restconf/restconf-nb/src/main/java/org/opendaylight/restconf/nb/rfc8040/jersey/providers/XmlPatchStatusBodyWriter.java:87-89 | Every error type is read back from the body it is written as |
| XmlPatchStatusBodyWriter.WriteTo | restconf/restconf-nb/src/main/java/org/opendaylight/restconf/nb/rfc8040/jersey/providers/XmlPatchStatusBodyWriter.java:37-44 | A fresh stream writer receives exactly the document of the patch status |
| XmlPatchStatusBodyWriter.WriteDocument | restconf/restconf-nb/src/main/java/org/opendaylight/restconf/nb/rfc8040/jersey/providers/XmlPatchStatusBodyWriter.java:46-80 | Appends exactly the document to what the writer already holds |
| XmlPatchStatusBodyWriter.WriteEdit | restconf/restconf-nb/src/main/java/org/opendaylight/restconf/nb/rfc8040/jersey/providers/XmlPatchStatusBodyWriter.java:62-73 | Appends exactly one `edit` element for the entry |
| XmlPatchStatusBodyWriter.ReportErrors | restconf/restconf-nb/src/main/java/org/opendaylight/restconf/nb/rfc8040/jersey/providers/XmlPatchStatusBodyWriter.java:82-121 | Appends one `errors` element holding the fields of every error, in order |
| XmlPatchStatusBodyWriter.WriteError | restconf/restconf-nb/src/main/java/org/opendaylight/restconf/nb/rfc8040/jersey/providers/XmlPatchStatusBodyWriter.java:87-117 | Appends exactly the fields of one error |
| XmlPatchStatusBodyWriter.WriteTextElement | restconf/restconf-nb/src/main/java/org/opendaylight/restconf/nb/rfc8040/jersey/providers/XmlPatchStatusBodyWriter.java:49-51 | Appends a start element, its text and its end element |
| XmlPatchStatusBodyWriter.LocalNamesDistinct | restconf/restconf-nb/src/main/java/org/opendaylight/restconf/nb/rfc8040/jersey/providers/XmlPatchStatusBodyWriter.java:48-114 | Distinct elements are written with distinct local names |
| XmlPatchStatusBodyWriter.ErrorsElementBalanced | restconf/restconf-nb/src/main/java/org/opendaylight/restconf/nb/rfc8040/jersey/providers/XmlPatchStatusBodyWriter.java:82-121 | An `errors` element closes every element it opens, from any enclosing context |
| XmlPatchStatusBodyWriter.EditElementBalanced | restconf/restconf-nb/src/main/java/org/opendaylight/restconf/nb/rfc8040/jersey/providers/XmlPatchStatusBodyWriter.java:62-73 | An `edit` element closes every element it opens |
| XmlPatchStatusBodyWriter.DocumentWellNested | restconf/restconf-nb/src/main/java/org/opendaylight/restconf/nb/rfc8040/jersey/providers/XmlPatchStatusBodyWriter.java:48-120 | The document is the root element around a balanced body, so every start element is matched by its end element |
| XmlPatchStatusBodyWriter.DocumentOpening | restconf/restconf-nb/src/main/java/org/opendaylight/restconf/nb/rfc8040/jersey/providers/XmlPatchStatusBodyWriter.java:48-51 | Opens with `yang-patch-status` in the ietf-yang-patch namespace, then `patch-id` holding the patch id, and ends by closing the root |
| XmlPatchStatusBodyWriter.OkDocument | restconf/restconf-nb/src/main/java/org/opendaylight/restconf/nb/rfc8040/jersey/providers/XmlPatchStatusBodyWriter.java:53-54 | On success the only child after `patch-id` is an empty `ok`: no `errors`, no `edit-status` |
| XmlPatchStatusBodyWriter.GlobalErrorsDocument | restconf/restconf-nb/src/main/java/org/opendaylight/restconf/nb/rfc8040/jersey/providers/XmlPatchStatusBodyWriter.java:55-58 | With global errors, `errors` follows `patch-id`, and no `edit-status`, `edit` or `ok` is written |
| XmlPatchStatusBodyWriter.EditStatusDocument | restconf/restconf-nb/src/main/java/org/opendaylight/restconf/nb/rfc8040/jersey/providers/XmlPatchStatusBodyWriter.java:59-76 | Otherwise `edit-status` follows `patch-id`, holding one `edit` per entry in order |
| XmlPatchStatusBodyWriter.EditElementShape | restconf/restconf-nb/src/main/java/org/opendaylight/restconf/nb/rfc8040/jersey/providers/XmlPatchStatusBodyWriter.java:62-73 | An edit begins with `edit-id`. Errors come before and exclude `ok`. With neither, the edit holds only `edit-id` |
| XmlPatchStatusBodyWriter.ErrorFieldsShape | restconf/restconf-nb/src/main/java/org/opendaylight/restconf/nb/rfc8040/jersey/providers/XmlPatchStatusBodyWriter.java:86-117 | `error-type`, then `error-tag`. Each of `error-path`, `error-message` and `error-info` appears exactly when it is set |
| XmlPatchStatusBodyWriter.ParseErrorRoundTrip | restconf/restconf-nb/src/main/java/org/opendaylight/restconf/nb/rfc8040/jersey/providers/XmlPatchStatusBodyWriter.java:86-117 | The fields written for an error decode back to that error, even without a wrapper element |
| XmlPatchStatusBodyWriter.ParseErrorSeqRoundTrip | restconf/restconf-nb/src/main/java/org/opendaylight/restconf/nb/rfc8040/jersey/providers/XmlPatchStatusBodyWriter.java:86-118 | Consecutive unwrapped errors decode back to the same list of errors, in order |
| XmlPatchStatusBodyWriter.ParseEditSeqRoundTrip | restconf/restconf-nb/src/main/java/org/opendaylight/restconf/nb/rfc8040/jersey/providers/XmlPatchStatusBodyWriter.java:61-74 | The `edit` elements decode back to the edit reports, in order |
| XmlPatchStatusBodyWriter.StatusChildrenRoundTrip | restconf/restconf-nb/src/main/java/org/opendaylight/restconf/nb/rfc8040/jersey/providers/XmlPatchStatusBodyWriter.java:53-77 | What follows `patch-id` decodes back to the one reported outcome |
| XmlPatchStatusBodyWriter.DocumentRoundTrip | restconf/restconf-nb/src/main/java/org/opendaylight/restconf/nb/rfc8040/jersey/providers/XmlPatchStatusBodyWriter.java:46-121 | Decoding the document gives exactly the report the patch status stands for |
| JsonPatchStatusBodyWriter.WriteTo | restconf/restconf-nb/src/main/java/org/opendaylight/restconf/nb/rfc8040/jersey/providers/JsonPatchStatusBodyWriter.java:27-56 | A fresh JSON writer receives exactly the document of the patch status |
| JsonPatchStatusBodyWriter.WriteEdit | restconf/restconf-nb/src/main/java/org/opendaylight/restconf/nb/rfc8040/jersey/providers/JsonPatchStatusBodyWriter.java:42-50 | Appends exactly one edit object for the entry |
| JsonPatchStatusBodyWriter.ReportSuccess | restconf/restconf-nb/src/main/java/org/opendaylight/restconf/nb/rfc8040/jersey/providers/JsonPatchStatusBodyWriter.java:58-60 | Appends `"ok": [null]` |
| JsonPatchStatusBodyWriter.ReportErrors | restconf/restconf-nb/src/main/java/org/opendaylight/restconf/nb/rfc8040/jersey/providers/JsonPatchStatusBodyWriter.java:62-89 | Appends `"errors": {"error": [...]}` with one object per error, in order |
| JsonPatchStatusBodyWriter.WriteError | restconf/restconf-nb/src/main/java/org/opendaylight/restconf/nb/rfc8040/jersey/providers/JsonPatchStatusBodyWriter.java:67-85 | Appends exactly one error object |
| JsonPatchStatusBodyWriter.WriteOptionalStringMember | restconf/restconf-nb/src/main/java/org/opendaylight/restconf/nb/rfc8040/jersey/providers/JsonPatchStatusBodyWriter.java:76-83 | Appends the member only when its value is set |
| JsonPatchStatusBodyWriter.MemberNamesDistinct | restconf/restconf-nb/src/main/java/org/opendaylight/restconf/nb/rfc8040/jersey/providers/JsonPatchStatusBodyWriter.java:29-82 | Distinct members are written with distinct names |
| JsonPatchStatusBodyWriter.SuccessBalanced | restconf/restconf-nb/src/main/java/org/opendaylight/restconf/nb/rfc8040/jersey/providers/JsonPatchStatusBodyWriter.java:58-60 | `"ok": [null]` closes the array it opens |
| JsonPatchStatusBodyWriter.ErrorsValueBalanced | restconf/restconf-nb/src/main/java/org/opendaylight/restconf/nb/rfc8040/jersey/providers/JsonPatchStatusBodyWriter.java:62-89 | The errors member closes every object and array it opens |
| JsonPatchStatusBodyWriter.EditObjectBalanced | restconf/restconf-nb/src/main/java/org/opendaylight/restconf/nb/rfc8040/jersey/providers/JsonPatchStatusBodyWriter.java:42-50 | An edit object closes everything it opens |
| JsonPatchStatusBodyWriter.DocumentAsStatusObject | restconf/restconf-nb/src/main/java/org/opendaylight/restconf/nb/rfc8040/jersey/providers/JsonPatchStatusBodyWriter.java:29-55 | The top object holds the single member `ietf-yang-patch:yang-patch-status`, and that member's value is the status object |
| JsonPatchStatusBodyWriter.DocumentWellNested | restconf/restconf-nb/src/main/java/org/opendaylight/restconf/nb/rfc8040/jersey/providers/JsonPatchStatusBodyWriter.java:29-55 | The status object closes every object and array it opens, so the whole document is well nested |
| JsonPatchStatusBodyWriter.DocumentOpening | restconf/restconf-nb/src/main/java/org/opendaylight/restconf/nb/rfc8040/jersey/providers/JsonPatchStatusBodyWriter.java:29-30 | The first member of the status object is `patch-id` with the patch id, and the document ends with two object ends |
| JsonPatchStatusBodyWriter.OkDocument | restconf/restconf-nb/src/main/java/org/opendaylight/restconf/nb/rfc8040/jersey/providers/JsonPatchStatusBodyWriter.java:32-33 | On success the status object holds `patch-id` and `"ok": [null]` only |
| JsonPatchStatusBodyWriter.GlobalErrorsDocument | restconf/restconf-nb/src/main/java/org/opendaylight/restconf/nb/rfc8040/jersey/providers/JsonPatchStatusBodyWriter.java:34-37 | With global errors, `"errors": {"error": [` follows `patch-id`, and no `edit-status`, `edit` or `ok` member is written |
| JsonPatchStatusBodyWriter.EditStatusDocument | restconf/restconf-nb/src/main/java/org/opendaylight/restconf/nb/rfc8040/jersey/providers/JsonPatchStatusBodyWriter.java:38-53 | Otherwise `"edit-status": {"edit": [` follows `patch-id`, with one object per edit in order |
| JsonPatchStatusBodyWriter.EditObjectShape | restconf/restconf-nb/src/main/java/org/opendaylight/restconf/nb/rfc8040/jersey/providers/JsonPatchStatusBodyWriter.java:42-50 | An edit object begins with `edit-id`. Errors exclude `ok`, success is `"ok": [null]`, and with neither it holds only `edit-id` |
| JsonPatchStatusBodyWriter.ErrorObjectShape | restconf/restconf-nb/src/main/java/org/opendaylight/restconf/nb/rfc8040/jersey/providers/JsonPatchStatusBodyWriter.java:67-85 | `error-type`, then `error-tag`. Each of `error-path`, `error-message` and `error-info` appears exactly when it is set |
| JsonPatchStatusBodyWriter.ParseErrorObjectRoundTrip | restconf/restconf-nb/src/main/java/org/opendaylight/restconf/nb/rfc8040/jersey/providers/JsonPatchStatusBodyWriter.java:67-85 | An error object decodes back to its error |
| JsonPatchStatusBodyWriter.ParseErrorObjectsRoundTrip | restconf/restconf-nb/src/main/java/org/opendaylight/restconf/nb/rfc8040/jersey/providers/JsonPatchStatusBodyWriter.java:66-86 | The `error` array decodes back to the list of errors, in order |
| JsonPatchStatusBodyWriter.ParseEditObjectsRoundTrip | restconf/restconf-nb/src/main/java/org/opendaylight/restconf/nb/rfc8040/jersey/providers/JsonPatchStatusBodyWriter.java:41-51 | The `edit` array decodes back to the edit reports, in order |
| JsonPatchStatusBodyWriter.StatusMembersRoundTrip | restconf/restconf-nb/src/main/java/org/opendaylight/restconf/nb/rfc8040/jersey/providers/JsonPatchStatusBodyWriter.java:32-54 | What follows `patch-id` decodes back to the one reported outcome |
| JsonPatchStatusBodyWriter.DocumentRoundTrip | restconf/restconf-nb/src/main/java/org/opendaylight/restconf/nb/rfc8040/jersey/providers/JsonPatchStatusBodyWriter.java:27-56 | Decoding the document gives exactly the report the patch status stands for |
| PatchStatusAgreement.FormatsAgree | restconf/restconf-nb/src/main/java/org/opendaylight/restconf/nb/rfc8040/jersey/providers/JsonPatchStatusBodyWriter.java:27-56 | The XML and the JSON documents of a patch status decode to the same report |
| PatchStatusAgreement.DocumentsDistinguishReports | restconf/restconf-nb/src/main/java/org/opendaylight/restconf/nb/rfc8040/jersey/providers/XmlPatchStatusBodyWriter.java:46-80 | Patch statuses with different reports get different documents in both formats |
| SubscribeDeviceNotificationRpc.CheckPath | restconf/restconf-nb/src/main/java/org/opendaylight/restconf/server/mdsal/streams/devnotif/SubscribeDeviceNotificationRpc.java:65-82 | Accepts exactly the inputs whose `path` leaf holds an instance identifier ending in a list entry with one key, and returns that path. Every rejection is an APPLICATION error |
| SubscribeDeviceNotificationRpc.Invoke | restconf/restconf-nb/src/main/java/org/opendaylight/restconf/server/mdsal/streams/devnotif/SubscribeDeviceNotificationRpc.java:62-97 | Succeeds only for an accepted path, and the output then holds exactly one leaf, `stream-name` |
| SubscribeDeviceNotificationRpc.MissingPath | restconf/restconf-nb/src/main/java/org/opendaylight/restconf/server/mdsal/streams/devnotif/SubscribeDeviceNotificationRpc.java:65-69 | A missing `path` fails with APPLICATION/MISSING_ELEMENT "No path specified" |
| SubscribeDeviceNotificationRpc.UnexpectedPath | restconf/restconf-nb/src/main/java/org/opendaylight/restconf/server/mdsal/streams/devnotif/SubscribeDeviceNotificationRpc.java:70-74 | A `path` that is not an instance identifier fails with APPLICATION/BAD_ELEMENT "Unexpected path <value>" |
| SubscribeDeviceNotificationRpc.NotAListItem | restconf/restconf-nb/src/main/java/org/opendaylight/restconf/server/mdsal/streams/devnotif/SubscribeDeviceNotificationRpc.java:75-78 | A path not ending in a keyed list entry fails with APPLICATION/BAD_ELEMENT "<path> does not refer to a list item" |
| SubscribeDeviceNotificationRpc.MultipleKeys | restconf/restconf-nb/src/main/java/org/opendaylight/restconf/server/mdsal/streams/devnotif/SubscribeDeviceNotificationRpc.java:79-82 | A list entry with a key count other than one fails with APPLICATION/INVALID_VALUE "<path> uses multiple keys" |
| SubscribeDeviceNotificationRpc.RejectedBeforeRegistry | restconf/restconf-nb/src/main/java/org/opendaylight/restconf/server/mdsal/streams/devnotif/SubscribeDeviceNotificationRpc.java:63-91 | A rejected path fails whatever the canonizer and the registry would do: neither is reached |
| SubscribeDeviceNotificationRpc.CanonizerFailure | restconf/restconf-nb/src/main/java/org/opendaylight/restconf/server/mdsal/streams/devnotif/SubscribeDeviceNotificationRpc.java:84-89 | A canonizer failure is the RPC's failed result |
| SubscribeDeviceNotificationRpc.RegistryFailure | restconf/restconf-nb/src/main/java/org/opendaylight/restconf/server/mdsal/streams/devnotif/SubscribeDeviceNotificationRpc.java:91-96 | When the path is accepted and canonized but the registry fails to create the stream, that failure is the RPC's failed result |
| SubscribeDeviceNotificationRpc.Subscribed | restconf/restconf-nb/src/main/java/org/opendaylight/restconf/server/mdsal/streams/devnotif/SubscribeDeviceNotificationRpc.java:91-96 | The registry gets the device at the path and the description "All YANG notifications occuring on mount point /<api path>". The output is the single `stream-name` leaf holding the new stream's name |

## Left out

- The call-home session code of the repository (SSH and TLS sessions, device identification) is not part of this model.
- WebSocketServerHandler, ApiDocServiceImpl, RestconfTransaction, DataYangPatchParams, JsonFormattableBody, Link and the repository's tests are not part of this model.
- The parameter value factories, `NotificationQueryParams.of` and `WriteDataParams.of` are function parameters. Their own validation is not part of this model.
- The instance-identifier codecs, `ApiPathCanonizer`, `RestconfStream.Registry` and the text a path prints as are function parameters or opaque values.
- The mount point service injected into `SubscribeDeviceNotificationRpc` is not modelled: it is a fixed service the RPC never consults itself and only passes, next to the path, into the `DeviceNotificationSource` it gives the registry, so the model's source records the path alone.
- Byte-level XML and JSON encoding, escaping, the character set, pretty printing and `flush` are left out. The writers record calls, not bytes.
- XmlPatchStatusBodyWriter.WriteTo: the wrapping of an XMLStreamException into an IOException is not modelled, because the recording writer never fails.
- Errors.DocumentedDefault: a RestconfDocumentedException built from a message alone is taken to report APPLICATION/OPERATION_FAILED, the default of that class, which is not part of this model. The exception's cause is not kept.
- QueryParams.EqualsIgnoreCase folds ASCII letters only. The only comparison made is against "true", and no other character folds to one of its letters.
- QueryParams.NewNotificationQueryParams and QueryParams.NewWriteDataParams take the query as its entry set in iteration order. That order is not specified by the map, and it decides which entry the loop reaches first.
- The requireNonNull checks on single values and constructor arguments are left out: query values and collaborators are never null here.
- The writers' element and member names form a closed enumeration. The writer classes accept only these names, not arbitrary strings.
- The asynchronous future the RPC returns is a `Result`; the output container's own node identifier is left out.
