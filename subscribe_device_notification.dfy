/**
 * The `subscribe-device-notification` RPC: given the `path` of a mounted device, a list entry
 * selected by a single key, it creates a stream of every YANG notification the device emits and
 * answers with the stream's name.
 *
 * The canonizer turning a data path into an API path, the stream registry and the text a path is
 * printed as belong to classes outside this model: they are function parameters. A failure of any
 * of them is a failed result, as the RPC's future reports it. The injected mount point service is
 * only passed along inside the notification source, which here records the path alone.
 */
module SubscribeDeviceNotificationRpc {
  import opened Wrappers
  import opened Yang
  import opened Errors

  /** The body of a leaf of the input: an instance identifier, or some other value with its printed text. */
  datatype LeafBody = InstanceIdentifierBody(path: InstanceIdentifier) | OtherBody(text: string)

  /** The RPC's input container: its leaves, by local name. */
  datatype InputBody = InputBody(children: map<string, LeafBody>)

  /** The RPC's output container: its leaves, by local name. */
  datatype Output = Output(children: map<string, string>)

  const PathLeafName := "path"
  const StreamNameLeafName := "stream-name"

  /** The source a stream of device notifications reads from: the mount point at `path`. */
  datatype DeviceNotificationSource = DeviceNotificationSource(path: InstanceIdentifier)

  /** What the RPC calls on but does not implement. */
  datatype Collaborators = Collaborators(
    /** The text an instance identifier is printed as. */
    render: InstanceIdentifier -> string,
    /** The canonizer: the API path of a data path, or the failure it reports. */
    canonize: InstanceIdentifier -> Result<string, Failure>,
    /** The stream registry: creates a stream from its URI, source and description, answering the stream's name. */
    createStream: (string, DeviceNotificationSource, string) -> Result<string, Failure>)

  /** The number of keys of a path argument that selects a list entry. */
  function KeyCount(arg: PathArgument): nat
    requires arg.NodeIdentifierWithPredicates?
  {
    |arg.keyValues|
  }

  /** The description the stream is registered with. */
  function StreamDescription(apiPath: string): string {
    "All YANG notifications occuring on mount point /" + apiPath
  }

  /** The checks the RPC makes, in order, before it touches the canonizer and the registry. */
  function CheckPath(render: InstanceIdentifier -> string, body: InputBody): (r: Result<InstanceIdentifier, Failure>)
    ensures r.Ok? <==> SubscribablePath(body)
    ensures r.Ok? ==> body.children[PathLeafName] == InstanceIdentifierBody(r.value)
    ensures r.Err? ==> r.error.Documented? && r.error.errorType == Application
  {
    if PathLeafName !in body.children then
      Err(Documented("No path specified", Application, MissingElement))
    else
      match body.children[PathLeafName]
      case OtherBody(text) =>
        Err(Documented("Unexpected path " + text, Application, BadElement))
      case InstanceIdentifierBody(path) =>
        var last := path.LastPathArgument();
        if last.None? || !last.value.NodeIdentifierWithPredicates? then
          Err(Documented(render(path) + " does not refer to a list item", Application, BadElement))
        else if KeyCount(last.value) != 1 then
          Err(Documented(render(path) + " uses multiple keys", Application, InvalidValue))
        else
          Ok(path)
  }

  /** A `path` leaf the RPC accepts: an instance identifier ending in a list entry selected by exactly one key. */
  predicate SubscribablePath(body: InputBody) {
    && PathLeafName in body.children
    && body.children[PathLeafName].InstanceIdentifierBody?
    && var args := body.children[PathLeafName].path.pathArguments;
    && args != []
    && args[|args| - 1].NodeIdentifierWithPredicates?
    && |args[|args| - 1].keyValues| == 1
  }

  /** The RPC: validate the path, canonize it, create the stream, answer its name. */
  function Invoke(c: Collaborators, restconfUri: string, body: InputBody): (r: Result<Output, Failure>)
    ensures r.Ok? ==> SubscribablePath(body)
    ensures r.Ok? ==> r.value.children.Keys == {StreamNameLeafName}
  {
    var path :- CheckPath(c.render, body);
    var apiPath :- c.canonize(path);
    var streamName :- c.createStream(restconfUri, DeviceNotificationSource(path), StreamDescription(apiPath));
    Ok(Output(map[StreamNameLeafName := streamName]))
  }

  /** Without a `path` leaf the RPC fails with APPLICATION/MISSING_ELEMENT. */
  lemma MissingPath(c: Collaborators, restconfUri: string, body: InputBody)
    requires PathLeafName !in body.children
    ensures Invoke(c, restconfUri, body) == Err(Documented("No path specified", Application, MissingElement))
  {
  }

  /** A `path` leaf that is not an instance identifier fails with APPLICATION/BAD_ELEMENT, naming the value. */
  lemma UnexpectedPath(c: Collaborators, restconfUri: string, body: InputBody, text: string)
    requires PathLeafName in body.children && body.children[PathLeafName] == OtherBody(text)
    ensures Invoke(c, restconfUri, body) == Err(Documented("Unexpected path " + text, Application, BadElement))
  {
  }

  /** A path that does not end in a list entry selected by keys fails with APPLICATION/BAD_ELEMENT. */
  lemma NotAListItem(c: Collaborators, restconfUri: string, body: InputBody, path: InstanceIdentifier)
    requires PathLeafName in body.children && body.children[PathLeafName] == InstanceIdentifierBody(path)
    requires path.pathArguments == [] || !path.pathArguments[|path.pathArguments| - 1].NodeIdentifierWithPredicates?
    ensures Invoke(c, restconfUri, body) == Err(Documented(c.render(path) + " does not refer to a list item", Application, BadElement))
  {
  }

  /** A list entry selected by no key or by several fails with APPLICATION/INVALID_VALUE. */
  lemma MultipleKeys(c: Collaborators, restconfUri: string, body: InputBody, path: InstanceIdentifier)
    requires PathLeafName in body.children && body.children[PathLeafName] == InstanceIdentifierBody(path)
    requires path.pathArguments != []
    requires var last := path.pathArguments[|path.pathArguments| - 1];
             last.NodeIdentifierWithPredicates? && |last.keyValues| != 1
    ensures Invoke(c, restconfUri, body) == Err(Documented(c.render(path) + " uses multiple keys", Application, InvalidValue))
  {
  }

  /**
   * Until every check passes, neither the canonizer nor the registry is consulted: any two
   * canonizers and registries give the same failure.
   */
  lemma RejectedBeforeRegistry(c1: Collaborators, c2: Collaborators, restconfUri: string, body: InputBody)
    requires !SubscribablePath(body)
    requires c1.render == c2.render
    ensures Invoke(c1, restconfUri, body).Err?
    ensures Invoke(c1, restconfUri, body) == Invoke(c2, restconfUri, body)
  {
    assert CheckPath(c1.render, body).Err?;
  }

  /** A canonizer failure is the RPC's failure, and the registry is not consulted. */
  lemma CanonizerFailure(c: Collaborators, restconfUri: string, body: InputBody, failure: Failure)
    requires SubscribablePath(body)
    requires c.canonize(body.children[PathLeafName].path) == Err(failure)
    ensures Invoke(c, restconfUri, body) == Err(failure)
  {
    assert CheckPath(c.render, body) == Ok(body.children[PathLeafName].path);
  }

  /** A registry failure on an accepted, canonized path is the RPC's failure. */
  lemma RegistryFailure(c: Collaborators, restconfUri: string, body: InputBody, apiPath: string, failure: Failure)
    requires SubscribablePath(body)
    requires var path := body.children[PathLeafName].path;
             && c.canonize(path) == Ok(apiPath)
             && c.createStream(restconfUri, DeviceNotificationSource(path), StreamDescription(apiPath)) == Err(failure)
    ensures Invoke(c, restconfUri, body) == Err(failure)
  {
    assert CheckPath(c.render, body) == Ok(body.children[PathLeafName].path);
  }

  /**
   * On an accepted path the registry is asked for a stream of the device at that path, described by
   * its API path; the output holds exactly one `stream-name` leaf, the created stream's name.
   */
  lemma Subscribed(c: Collaborators, restconfUri: string, body: InputBody, apiPath: string, streamName: string)
    requires SubscribablePath(body)
    requires var path := body.children[PathLeafName].path;
             && c.canonize(path) == Ok(apiPath)
             && c.createStream(restconfUri, DeviceNotificationSource(path), "All YANG notifications occuring on mount point /" + apiPath) == Ok(streamName)
    ensures Invoke(c, restconfUri, body) == Ok(Output(map[StreamNameLeafName := streamName]))
  {
    assert CheckPath(c.render, body) == Ok(body.children[PathLeafName].path);
  }
}
