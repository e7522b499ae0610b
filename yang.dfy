/** The parts of the YANG data model the RESTCONF northbound code inspects: qualified names and instance identifiers. */
module Yang {
  import opened Wrappers

  /** A YANG qualified name: module namespace and local name. */
  datatype QName = QName(namespace: string, localName: string)

  /** One step of an instance identifier. */
  datatype PathArgument =
    | NodeIdentifier(nodeType: QName)
      /** A list entry selected by its key leaves; the keys form a map, so each key leaf occurs once. */
    | NodeIdentifierWithPredicates(nodeType: QName, keyValues: map<QName, string>)
      /** A leaf-list entry selected by its value. */
    | NodeWithValue(nodeType: QName, value: string)

  /** A path from the root of the data tree to one node. */
  datatype InstanceIdentifier = InstanceIdentifier(pathArguments: seq<PathArgument>) {

    /** The last step of the path; absent for the empty (root) path. */
    function LastPathArgument(): Option<PathArgument> {
      if pathArguments == [] then None else Some(pathArguments[|pathArguments| - 1])
    }
  }
}
