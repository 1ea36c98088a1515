/** The records the data-access object reads, builds and passes on. */
module Entities {
  import opened Wrappers
  import opened JavaInts

  /** A Java `Set<String>` configuration field; `None` is a `null` field. */
  type StringSet = Option<set<string>>

  /** The members of a configured set, a `null` set having none. */
  function Entries(s: StringSet): set<string>
  {
    if s.Some? then s.value else {}
  }

  /** A store reference: protocol and identifier, as in `workspace://SpacesStore`. */
  datatype StoreRef = StoreRef(protocol: string, identifier: string)

  /** The `Pair<Long, StoreRef>` the batch reads receive: the store's numeric
      id first, its reference second. */
  datatype StorePair = StorePair(first: Int64, second: StoreRef)

  /** A node row produced by the query layer: its row id, the reference of the
      store holding it, and its uuid. */
  datatype Node = Node(id: Int64, storeRef: StoreRef, uuid: string)

  /** The host repository's handle on a node: store reference plus uuid. */
  datatype NodeRef = NodeRef(storeRef: StoreRef, id: string)

  /** A property value as the host returns it: a Java `String`, or a value of
      any other serialisable type, which never equals a `String`. */
  datatype PropertyValue = Text(text: string) | NonText(typeName: string, rendering: string)

  /** The request descriptor handed to the query layer. Every field of a fresh
      descriptor is `null`; the reads fill in the ones they need. */
  datatype NodeBatchLoadEntity = NodeBatchLoadEntity(
    storeId: Option<Int64>,
    storeProtocol: Option<string>,
    storeIdentifier: Option<string>,
    uuid: Option<string>,
    minId: Option<Int64>,
    maxId: Option<Int64>,
    allowedTypes: StringSet,
    excludedNameExtension: StringSet,
    properties: StringSet,
    aspects: StringSet,
    mimeTypes: StringSet)

  /** A freshly constructed descriptor, every field unset. */
  const EMPTY_LOAD_ENTITY: NodeBatchLoadEntity :=
    NodeBatchLoadEntity(None, None, None, None, None, None, None, None, None, None, None)

  /** The six configuration sets of the data-access object. */
  datatype Config = Config(
    allowedTypes: StringSet,
    excludedNameExtension: StringSet,
    properties: StringSet,
    aspects: StringSet,
    mimeTypes: StringSet,
    sites: StringSet)

  /** The configuration of a freshly constructed object: every set `null`. */
  const UNCONFIGURED: Config := Config(None, None, None, None, None, None)
}
