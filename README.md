# Indexing DAO: batch reads and post-fetch filter

This project models the data-access object `IndexingDaoImpl` of an
indexing connector for a content repository. The object pages through
changed repository nodes along one of two axes: ACL changeset id or
transaction id. It hands each page request to a query layer and then runs
a post-fetch filter. That filter drops nodes that no longer exist, nodes
outside the configured sites, and nodes whose current property values
differ from the configured `"qualifiedName:value"` entries.

Modules, one per concern:

- `Wrappers`: `Option` (a Java `null`) and `Result` (a thrown exception).
- `JavaInts`: Java `int` and `long` ranges, and `long + int` with wrap-around.
- `Entities`: store references, node rows, node handles, property values,
  the `NodeBatchLoadEntity` request descriptor and the configuration sets.
- `Services`: the host collaborators, given to the model as records of
  functions. The node service has existence and property lookup. The site
  service has the site-name lookup. The query runner has `selectList` and
  `selectOne`. The three statement ids are constants.
- `PropertyEntries`: Java's `lastIndexOf` and the split of a property entry
  on its last colon.
- `Criteria`: the page-size guard and the descriptors for batch and point reads.
- `NodeFilter`: which filters are active (`GetFilters`), when a node is
  kept (`Keep`), and the specification of the filter pass (`Filtered`),
  with lemmas about it.
- `IndexingDao`: the class `IndexingDaoImpl`. It holds the wiring and the
  six configuration sets as fields, has the setters and getters, the two
  batch reads, the point lookup, and `FilterNodes`. `FilterNodes` is the
  loop of the source, proved equal to `Filtered`.

Two behaviours of the code are easy to misread, and the model states them
as the code has them:

- The property check accumulates its flag as `shouldBeAdded && ...`
  (IndexingDaoImpl.java:160). So it is a true conjunction over all
  well-formed entries, not "last comparison wins".
  `NodeFilter.PropertiesMatch` is that conjunction, and `FilterNodes` is
  proved against it for any iteration order of the set.
- A malformed entry changes nothing once the property filter is active
  (`NodeFilter.MalformedEntryIgnored`). But a property set made only of
  malformed entries is still non-empty, so it switches the filter on. Nodes
  that no longer exist are then dropped instead of passed through
  (`NodeFilter.MalformedOnlyEntryStillFilters`).

## Model

Source paths are relative to the repository root; `IndexingDaoImpl.java`
stands for
`alfresco-indexer-webscripts/src/main/java/org/alfresco/consulting/indexer/dao/IndexingDaoImpl.java`.

| member | source | states |
|---|---|---|
| `JavaInts.AddLong` | alfresco-indexer-webscripts/src/main/java/org/alfresco/consulting/indexer/dao/IndexingDaoImpl.java:60 | `long + int` is the exact sum when it fits in a `long`; otherwise it is the sum shifted by 2^64 (two's-complement wrap-around) |
| `Criteria.ReasonableMaxResults` | alfresco-indexer-webscripts/src/main/java/org/alfresco/consulting/indexer/dao/IndexingDaoImpl.java:48-51 | the page size is accepted exactly when it lies in 1 .. `Integer.MAX_VALUE - 1` |
| `Criteria.BatchCriteria` | alfresco-indexer-webscripts/src/main/java/org/alfresco/consulting/indexer/dao/IndexingDaoImpl.java:55-65 | the batch descriptor holds the store id, protocol and identifier of the store pair; `minId = last`; `maxId` is congruent to `last + maxResults` modulo 2^64 and equal to it when no overflow occurs; the allowed-types, excluded-extension, aspect and mime-type sets are the configured ones; properties and uuid are unset |
| `Criteria.UuidCriteria` | alfresco-indexer-webscripts/src/main/java/org/alfresco/consulting/indexer/dao/IndexingDaoImpl.java:103-107 | the point-lookup descriptor holds the store fields and the uuid; it has no id window and no filter set |
| `Criteria.BatchWindowExact` | alfresco-indexer-webscripts/src/main/java/org/alfresco/consulting/indexer/dao/IndexingDaoImpl.java:59-60 | for an accepted page size without overflow, an id is in the descriptor's window `[minId, maxId)` exactly when `last <= id < last + maxResults`, so the window is never empty |
| `Criteria.BatchWindowWraps` | alfresco-indexer-webscripts/src/main/java/org/alfresco/consulting/indexer/dao/IndexingDaoImpl.java:60 | when `last + maxResults` overflows a `long`, `maxId` wraps below `minId` and the window holds no id |
| `IndexingDao.IndexingDaoImpl.GetNodesByAclChangesetId` | alfresco-indexer-webscripts/src/main/java/org/alfresco/consulting/indexer/dao/IndexingDaoImpl.java:45-69 | fails with `IllegalArgument` and the source's message exactly when the page size is not reasonable; otherwise returns the filter pass applied to the ACL-changeset statement's rows for the batch descriptor |
| `IndexingDao.IndexingDaoImpl.GetNodesByTransactionId` | alfresco-indexer-webscripts/src/main/java/org/alfresco/consulting/indexer/dao/IndexingDaoImpl.java:71-95 | the same guard and the same result, for the transaction statement |
| `IndexingDao.IndexingDaoImpl.GetNodeByUuid` | alfresco-indexer-webscripts/src/main/java/org/alfresco/consulting/indexer/dao/IndexingDaoImpl.java:97-110 | returns at most one row: the one the uuid statement gives for the uuid descriptor, with no post-fetch filter |
| `IndexingDao.IndexingDaoImpl.FilterNodes` | alfresco-indexer-webscripts/src/main/java/org/alfresco/consulting/indexer/dao/IndexingDaoImpl.java:117-174 | the loop (with its nested loop over the property set, in any order) returns exactly `Filtered` of the current configuration and services |
| `IndexingDao.IndexingDaoImpl.MatchesProperties` | alfresco-indexer-webscripts/src/main/java/org/alfresco/consulting/indexer/dao/IndexingDaoImpl.java:143-162 | the loop over the configured property set, taken in any iteration order, returns exactly the conjunction `PropertiesMatch` over all entries: malformed entries are skipped, and a well-formed entry needs the node's current value to be that string |
| `NodeFilter.PropertiesMatchStep` | alfresco-indexer-webscripts/src/main/java/org/alfresco/consulting/indexer/dao/IndexingDaoImpl.java:160 | the property check over one more entry is the previous check AND that entry's own |
| `NodeFilter.GetFilters` | alfresco-indexer-webscripts/src/main/java/org/alfresco/consulting/indexer/dao/IndexingDaoImpl.java:180-189 | the site filter is active exactly when the site set has an entry, and likewise the property filter; a `null` set counts as empty |
| `NodeFilter.FilteredPassThrough` | alfresco-indexer-webscripts/src/main/java/org/alfresco/consulting/indexer/dao/IndexingDaoImpl.java:170-172 | with neither filter active the pass returns its input unchanged, nodes that no longer exist included |
| `NodeFilter.SelectIsSubsequence` | alfresco-indexer-webscripts/src/main/java/org/alfresco/consulting/indexer/dao/IndexingDaoImpl.java:126-128 | the kept nodes are a subsequence of the input: only deletions, input order kept |
| `NodeFilter.SelectCount` | alfresco-indexer-webscripts/src/main/java/org/alfresco/consulting/indexer/dao/IndexingDaoImpl.java:165-167 | a kept node occurs in the output as often as in the input; a dropped node does not occur at all |
| `NodeFilter.FilteredOrderPreserving` | alfresco-indexer-webscripts/src/main/java/org/alfresco/consulting/indexer/dao/IndexingDaoImpl.java:124-172 | under any configuration the output is a subsequence of the input and repeats no node more often than the input does |
| `NodeFilter.FilteredSound` | alfresco-indexer-webscripts/src/main/java/org/alfresco/consulting/indexer/dao/IndexingDaoImpl.java:133-166 | with a filter active, every returned node came from the input and still exists; with the site filter active its site name is non-null and in the site set; with the property filter active each well-formed entry's property currently holds exactly that string |
| `NodeFilter.FilteredComplete` | alfresco-indexer-webscripts/src/main/java/org/alfresco/consulting/indexer/dao/IndexingDaoImpl.java:128-168 | with a filter active, every input node that exists and passes the active checks is returned |
| `NodeFilter.SiteFilterExample` | alfresco-indexer-webscripts/src/main/java/org/alfresco/consulting/indexer/dao/IndexingDaoImpl.java:136-139 | sites `{"engineering"}`, with nodes in "engineering", in "marketing" and in no site, returns only the first |
| `NodeFilter.MalformedEntryIgnored` | alfresco-indexer-webscripts/src/main/java/org/alfresco/consulting/indexer/dao/IndexingDaoImpl.java:149-157 | once the property filter is active, adding a malformed entry to it leaves the output unchanged |
| `NodeFilter.MalformedOnlyEntryStillFilters` | alfresco-indexer-webscripts/src/main/java/org/alfresco/consulting/indexer/dao/IndexingDaoImpl.java:186 | a property set holding only a malformed entry still activates the filter and drops a node that no longer exists, which an unset property set would return |
| `PropertyEntries.LastIndexOf` | alfresco-indexer-webscripts/src/main/java/org/alfresco/consulting/indexer/dao/IndexingDaoImpl.java:145 | the result is -1 exactly when the character is absent; otherwise it is a position holding the character with no occurrence after it |
| `PropertyEntries.ParseEntry` | alfresco-indexer-webscripts/src/main/java/org/alfresco/consulting/indexer/dao/IndexingDaoImpl.java:145-157 | an entry is skipped exactly when it is empty, has no colon after its first character, or ends with a colon; otherwise it is name + ":" + value with a non-empty name and a non-empty, colon-free value |
| `PropertyEntries.ParseRoundTrip` | alfresco-indexer-webscripts/src/main/java/org/alfresco/consulting/indexer/dao/IndexingDaoImpl.java:145-152 | for a non-empty name (colons allowed) and a non-empty colon-free value, `name + ":" + value` parses back to that pair |
| `IndexingDao.IndexingDaoImpl.constructor` | alfresco-indexer-webscripts/src/main/java/org/alfresco/consulting/indexer/dao/IndexingDaoImpl.java:34-43 | a wired object has the given query runner and services, and every configuration set is `null` |
| `IndexingDao.IndexingDaoImpl.SetSqlSessionTemplate` | alfresco-indexer-webscripts/src/main/java/org/alfresco/consulting/indexer/dao/IndexingDaoImpl.java:191-194 | replaces the query runner and nothing else |
| `IndexingDao.IndexingDaoImpl.SetServiceRegistry` | alfresco-indexer-webscripts/src/main/java/org/alfresco/consulting/indexer/dao/IndexingDaoImpl.java:196-199 | takes the site and node services from the registry and changes nothing else |
| `IndexingDao.IndexingDaoImpl.SetAllowedTypes` | alfresco-indexer-webscripts/src/main/java/org/alfresco/consulting/indexer/dao/IndexingDaoImpl.java:201-209 | the getter then returns the new set; the other sets are unchanged |
| `IndexingDao.IndexingDaoImpl.SetExcludedNameExtension` | alfresco-indexer-webscripts/src/main/java/org/alfresco/consulting/indexer/dao/IndexingDaoImpl.java:211-219 | the getter then returns the new set; the other sets are unchanged |
| `IndexingDao.IndexingDaoImpl.SetProperties` | alfresco-indexer-webscripts/src/main/java/org/alfresco/consulting/indexer/dao/IndexingDaoImpl.java:221-229 | the getter then returns the new set; the other sets are unchanged |
| `IndexingDao.IndexingDaoImpl.SetAspects` | alfresco-indexer-webscripts/src/main/java/org/alfresco/consulting/indexer/dao/IndexingDaoImpl.java:231-240 | the getter then returns the new set; the other sets are unchanged |
| `IndexingDao.IndexingDaoImpl.SetMimeTypes` | alfresco-indexer-webscripts/src/main/java/org/alfresco/consulting/indexer/dao/IndexingDaoImpl.java:242-250 | the getter then returns the new set; the other sets are unchanged |
| `IndexingDao.IndexingDaoImpl.SetSites` | alfresco-indexer-webscripts/src/main/java/org/alfresco/consulting/indexer/dao/IndexingDaoImpl.java:252-259 | the getter then returns the new set; the other sets are unchanged |

## Left out

- The query layer (MyBatis `selectList`/`selectOne` and `RowBounds(0, Integer.MAX_VALUE)`) is a pair of functions supplied from outside. The SQL mapping that applies the pushed-down type, extension, aspect and mime-type filters and the id window is not part of this model.
- `NodeBatchLoadEntity` and `NodeEntity` are not part of this model. The descriptor's fields come from the setters the object calls. A node row keeps only what the object reads: its store reference and uuid, plus its row id.
- `NodeService`, `SiteService`, `ServiceRegistry` and `QName.createQName` are host services. Property lookup is keyed by the qualified-name string. How `createQName` parses that name, and any exception it throws, are not modelled.
- Exceptions from the query layer or the host services, which propagate unchanged, are not modelled.
- Logging carries no behaviour and is left out.
- `null` arguments are not modelled (the store pair, the boxed `Long` id, the uuid, the row list). Neither is use before the query runner and services are wired. In Java these throw `NullPointerException`; in the model the constructor takes the wiring.
- `FilterNodes` calls `MatchesProperties` for the nested loop over the property set. In Java that loop sits inline in `filterNodes`. The split only keeps each proof small.
- IndexingDao.IndexingDaoImpl.FilterNodes: when no filter is active, Java returns the very list it was given. The model returns an equal sequence, so aliasing is not captured.
- IndexingDao.IndexingDaoImpl.GetNodesByAclChangesetId: the contract cannot observe that no query is issued on the error path, because the query runner is a pure function here. The early return is what shows it. The same holds for `GetNodesByTransactionId`.
- Concurrent reconfiguration through the setters during a read is not modelled, because the object provides no synchronisation.
- Getters are plain field reads. They are stated through the setters' contracts.
