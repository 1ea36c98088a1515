/** The data-access object: its wiring, its configuration sets, the two
    batch reads, the point lookup and the post-fetch filter pass. */
module IndexingDao {
  import opened Wrappers
  import opened JavaInts
  import opened Entities
  import opened Services
  import opened PropertyEntries
  import opened Criteria
  import opened NodeFilter

  class IndexingDaoImpl {
    var template: SqlSessionTemplate
    var siteService: SiteService
    var nodeService: NodeService

    var allowedTypes: StringSet
    var excludedNameExtension: StringSet
    var properties: StringSet
    var aspects: StringSet
    var mimeTypes: StringSet
    var sites: StringSet

    /** The six configuration sets as one value. */
    function Config(): Config
      reads this
    {
      Entities.Config(allowedTypes, excludedNameExtension, properties, aspects, mimeTypes, sites)
    }

    /** An object as the container hands it out: query runner and services
        wired, every configuration set still `null`. */
    constructor (template: SqlSessionTemplate, registry: ServiceRegistry)
      ensures this.template == template
      ensures siteService == registry.siteService && nodeService == registry.nodeService
      ensures Config() == UNCONFIGURED
    {
      this.template := template;
      siteService := registry.siteService;
      nodeService := registry.nodeService;
      allowedTypes, excludedNameExtension, properties := None, None, None;
      aspects, mimeTypes, sites := None, None, None;
    }

    /** One page of the nodes changed by ACL changesets from
        `lastAclChangesetId` on, passed through the post-fetch filter. An
        unusable page size throws before any descriptor is built or any query
        is issued. */
    method GetNodesByAclChangesetId(store: StorePair, lastAclChangesetId: Int64, maxResults: Int32)
      returns (r: Result<seq<Node>, DaoError>)
      ensures r.Failure? <==> !ReasonableMaxResults(maxResults)
      ensures r.Failure? ==> r.error == IllegalArgument(UNREASONABLE_MAX_RESULTS)
      ensures r.Success? ==>
        r.value == Filtered(Config(), nodeService, siteService,
                            template.selectList(SELECT_NODES_BY_ACLS,
                                                BatchCriteria(store, lastAclChangesetId, maxResults, Config())))
    {
      if maxResults <= 0 || maxResults == INTEGER_MAX_VALUE {
        return Failure(IllegalArgument(UNREASONABLE_MAX_RESULTS));
      }
      var nodeLoadEntity := BatchCriteria(store, lastAclChangesetId, maxResults, Config());
      var rows := template.selectList(SELECT_NODES_BY_ACLS, nodeLoadEntity);
      var nodes := FilterNodes(rows);
      return Success(nodes);
    }

    /** The same read along the transaction axis. */
    method GetNodesByTransactionId(store: StorePair, lastTransactionId: Int64, maxResults: Int32)
      returns (r: Result<seq<Node>, DaoError>)
      ensures r.Failure? <==> !ReasonableMaxResults(maxResults)
      ensures r.Failure? ==> r.error == IllegalArgument(UNREASONABLE_MAX_RESULTS)
      ensures r.Success? ==>
        r.value == Filtered(Config(), nodeService, siteService,
                            template.selectList(SELECT_NODES_BY_TXNS,
                                                BatchCriteria(store, lastTransactionId, maxResults, Config())))
    {
      if maxResults <= 0 || maxResults == INTEGER_MAX_VALUE {
        return Failure(IllegalArgument(UNREASONABLE_MAX_RESULTS));
      }
      var nodeLoadEntity := BatchCriteria(store, lastTransactionId, maxResults, Config());
      var rows := template.selectList(SELECT_NODES_BY_TXNS, nodeLoadEntity);
      var nodes := FilterNodes(rows);
      return Success(nodes);
    }

    /** The single row with this uuid in the store, if any, as the query layer
        returns it: no post-fetch filter is applied. */
    method GetNodeByUuid(store: StorePair, uuid: string) returns (r: Option<Node>)
      ensures r == template.selectOne(SELECT_NODES_BY_UUID, UuidCriteria(store, uuid))
    {
      var nodeLoadEntity := UuidCriteria(store, uuid);
      r := template.selectOne(SELECT_NODES_BY_UUID, nodeLoadEntity);
    }

    /** The post-fetch filter pass: the input itself when no filter is active;
        otherwise the nodes that still exist and pass the active site and
        property checks, in input order. */
    method FilterNodes(nodes: seq<Node>) returns (filteredNodes: seq<Node>)
      ensures filteredNodes == Filtered(Config(), nodeService, siteService, nodes)
    {
      var filters := GetFilters(Config());
      if filters.AnyActive() {
        filteredNodes := [];
        ghost var cfg := Config();
        var i := 0;
        while i < |nodes|
          invariant 0 <= i <= |nodes|
          invariant filteredNodes == Select(cfg, nodeService, siteService, nodes[..i])
        {
          var node := nodes[i];
          var shouldBeAdded := true;
          var nodeRef := NodeRef(node.storeRef, node.uuid);
          if nodeService.nodeExists(nodeRef) {
            if filters.site {
              var siteName := siteService.getSiteShortName(nodeRef);
              shouldBeAdded := siteName.Some? && siteName.value in sites.value;
            }
            if filters.properties && shouldBeAdded {
              shouldBeAdded := MatchesProperties(nodeRef);
            }
            if shouldBeAdded {
              filteredNodes := filteredNodes + [node];
            }
          }
          assert shouldBeAdded && nodeService.nodeExists(nodeRef) <==> Keep(cfg, nodeService, siteService, node);
          assert nodes[..i + 1][..i] == nodes[..i];
          i := i + 1;
        }
        assert nodes[..i] == nodes;
      } else {
        filteredNodes := nodes;
      }
    }

    /** The property check of one node: every configured entry, taken in any
        order, is either malformed and skipped or names the string the node
        currently holds under that qualified name. */
    method MatchesProperties(nodeRef: NodeRef) returns (shouldBeAdded: bool)
      requires properties.Some?
      ensures shouldBeAdded == PropertiesMatch(nodeService, nodeRef, properties.value)
    {
      shouldBeAdded := true;
      var pending := properties.value;
      ghost var done: set<string> := {};
      while pending != {}
        invariant pending + done == properties.value && pending !! done
        invariant shouldBeAdded == PropertiesMatch(nodeService, nodeRef, done)
        decreases |pending|
      {
        var prop :| prop in pending;
        var parsed := ParseEntry(prop);
        if parsed.Some? {
          var rawValue := nodeService.getProperty(nodeRef, parsed.value.0);
          shouldBeAdded := shouldBeAdded && rawValue == Some(Text(parsed.value.1));
        }
        pending := pending - {prop};
        done := done + {prop};
      }
    }

    /** Rewires the query runner; nothing else changes. */
    method SetSqlSessionTemplate(sqlSessionTemplate: SqlSessionTemplate)
      modifies this`template
      ensures template == sqlSessionTemplate
    {
      template := sqlSessionTemplate;
    }

    /** Takes the site and node services from the registry; nothing else
        changes. */
    method SetServiceRegistry(serviceRegistry: ServiceRegistry)
      modifies this`siteService, this`nodeService
      ensures siteService == serviceRegistry.siteService && nodeService == serviceRegistry.nodeService
    {
      siteService := serviceRegistry.siteService;
      nodeService := serviceRegistry.nodeService;
    }

    function GetAllowedTypes(): StringSet reads this { allowedTypes }
    function GetExcludedNameExtension(): StringSet reads this { excludedNameExtension }
    function GetProperties(): StringSet reads this { properties }
    function GetAspects(): StringSet reads this { aspects }
    function GetMimeTypes(): StringSet reads this { mimeTypes }
    function GetSites(): StringSet reads this { sites }

    /** Each setter replaces one configuration set, which its getter then
        returns; the other sets and the wiring stay as they were. */
    method SetAllowedTypes(allowedTypes: StringSet)
      modifies this`allowedTypes
      ensures GetAllowedTypes() == allowedTypes
      ensures Config() == old(Config()).(allowedTypes := allowedTypes)
    {
      this.allowedTypes := allowedTypes;
    }

    method SetExcludedNameExtension(excludedNameExtension: StringSet)
      modifies this`excludedNameExtension
      ensures GetExcludedNameExtension() == excludedNameExtension
      ensures Config() == old(Config()).(excludedNameExtension := excludedNameExtension)
    {
      this.excludedNameExtension := excludedNameExtension;
    }

    method SetProperties(properties: StringSet)
      modifies this`properties
      ensures GetProperties() == properties
      ensures Config() == old(Config()).(properties := properties)
    {
      this.properties := properties;
    }

    method SetAspects(aspects: StringSet)
      modifies this`aspects
      ensures GetAspects() == aspects
      ensures Config() == old(Config()).(aspects := aspects)
    {
      this.aspects := aspects;
    }

    method SetMimeTypes(mimeTypes: StringSet)
      modifies this`mimeTypes
      ensures GetMimeTypes() == mimeTypes
      ensures Config() == old(Config()).(mimeTypes := mimeTypes)
    {
      this.mimeTypes := mimeTypes;
    }

    method SetSites(sites: StringSet)
      modifies this`sites
      ensures GetSites() == sites
      ensures Config() == old(Config()).(sites := sites)
    {
      this.sites := sites;
    }
  }
}
