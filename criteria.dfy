/** The page-size guard of the batch reads and the descriptors handed to the
    query layer. */
module Criteria {
  import opened Wrappers
  import opened JavaInts
  import opened Entities

  /** The exception the batch reads throw for an unusable page size. */
  datatype DaoError = IllegalArgument(message: string)

  const UNREASONABLE_MAX_RESULTS := "Maximum results must be a reasonable number."

  /** The guard of the batch reads: a page size is refused when it is not
      positive or is the `Integer.MAX_VALUE` sentinel. */
  function ReasonableMaxResults(maxResults: Int32): (ok: bool)
    ensures ok <==> 1 <= maxResults <= INTEGER_MAX_VALUE - 1
  {
    !(maxResults <= 0 || maxResults == INTEGER_MAX_VALUE)
  }

  /** The descriptor of a batch read: the store fields, the id window
      `[last, last + maxResults)` and the four filter sets pushed down to the
      query; the property set and the uuid stay unset. */
  function BatchCriteria(store: StorePair, last: Int64, maxResults: Int32, cfg: Config): (c: NodeBatchLoadEntity)
    ensures c.storeId == Some(store.first)
    ensures c.storeProtocol == Some(store.second.protocol)
    ensures c.storeIdentifier == Some(store.second.identifier)
    ensures c.minId == Some(last)
    ensures c.maxId.Some? && (c.maxId.value - (last + maxResults)) % LONG_MODULUS == 0
    ensures LONG_MIN_VALUE <= last + maxResults <= LONG_MAX_VALUE ==> c.maxId == Some(last + maxResults)
    ensures c.allowedTypes == cfg.allowedTypes && c.excludedNameExtension == cfg.excludedNameExtension
    ensures c.aspects == cfg.aspects && c.mimeTypes == cfg.mimeTypes
    ensures c.properties == None && c.uuid == None
  {
    EMPTY_LOAD_ENTITY.(
      storeId := Some(store.first),
      storeProtocol := Some(store.second.protocol),
      storeIdentifier := Some(store.second.identifier),
      minId := Some(last),
      maxId := Some(AddLong(last, maxResults)),
      allowedTypes := cfg.allowedTypes,
      excludedNameExtension := cfg.excludedNameExtension,
      aspects := cfg.aspects,
      mimeTypes := cfg.mimeTypes)
  }

  /** The descriptor of a point lookup: the store fields and the uuid, with no
      id window and no filter set. */
  function UuidCriteria(store: StorePair, uuid: string): (c: NodeBatchLoadEntity)
    ensures c.storeId == Some(store.first)
    ensures c.storeProtocol == Some(store.second.protocol)
    ensures c.storeIdentifier == Some(store.second.identifier)
    ensures c.uuid == Some(uuid)
    ensures c.minId == None && c.maxId == None
    ensures c.allowedTypes == None && c.excludedNameExtension == None && c.properties == None
    ensures c.aspects == None && c.mimeTypes == None
  {
    EMPTY_LOAD_ENTITY.(
      storeId := Some(store.first),
      storeProtocol := Some(store.second.protocol),
      storeIdentifier := Some(store.second.identifier),
      uuid := Some(uuid))
  }

  /** Whether a row id falls in the half-open window `[minId, maxId)` of a
      descriptor. */
  predicate InIdWindow(c: NodeBatchLoadEntity, id: int)
  {
    c.minId.Some? && c.maxId.Some? && c.minId.value <= id < c.maxId.value
  }

  /** For an accepted page size whose window end fits in a `long`, the window
      holds exactly the ids `last, ..., last + maxResults - 1`: it is never
      empty and never wider than the page size. */
  lemma BatchWindowExact(store: StorePair, last: Int64, maxResults: Int32, cfg: Config, id: int)
    requires ReasonableMaxResults(maxResults)
    requires last + maxResults <= LONG_MAX_VALUE
    ensures InIdWindow(BatchCriteria(store, last, maxResults, cfg), id) <==> last <= id < last + maxResults
    ensures InIdWindow(BatchCriteria(store, last, maxResults, cfg), last)
  {
  }

  /** When `last + maxResults` overflows a `long` the window end wraps below its
      start and the window holds no id at all. */
  lemma BatchWindowWraps(store: StorePair, last: Int64, maxResults: Int32, cfg: Config, id: int)
    requires ReasonableMaxResults(maxResults)
    requires last + maxResults > LONG_MAX_VALUE
    ensures BatchCriteria(store, last, maxResults, cfg).maxId.value < last
    ensures !InIdWindow(BatchCriteria(store, last, maxResults, cfg), id)
  {
  }
}
