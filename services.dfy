/** The host services the data-access object calls, as records of functions
    supplied from outside. */
module Services {
  import opened Wrappers
  import opened Entities

  /** Node lookups: whether a node still exists, and the current value of one
      of its properties (keyed by qualified name; `None` is `null`). */
  datatype NodeService = NodeService(
    nodeExists: NodeRef -> bool,
    getProperty: (NodeRef, string) -> Option<PropertyValue>)

  /** Site lookup: the short name of the site holding a node, if any. */
  datatype SiteService = SiteService(getSiteShortName: NodeRef -> Option<string>)

  /** The registry the object takes its node and site services from. */
  datatype ServiceRegistry = ServiceRegistry(siteService: SiteService, nodeService: NodeService)

  /** The query runner: a named statement and a descriptor give a list of rows,
      or at most one row for a point lookup. */
  datatype SqlSessionTemplate = SqlSessionTemplate(
    selectList: (string, NodeBatchLoadEntity) -> seq<Node>,
    selectOne: (string, NodeBatchLoadEntity) -> Option<Node>)

  const SELECT_NODES_BY_ACLS := "alfresco.index.select_NodeIndexesByAclChangesetId"
  const SELECT_NODES_BY_TXNS := "alfresco.index.select_NodeIndexesByTransactionId"
  const SELECT_NODES_BY_UUID := "alfresco.index.select_NodeIndexesByUuid"
}
