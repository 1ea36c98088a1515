/** The post-fetch filter: which filters are active, which nodes a filter
    pass keeps, and what the pass returns. */
module NodeFilter {
  import opened Wrappers
  import opened Entities
  import opened Services
  import opened PropertyEntries

  /** Which of the two post-fetch filters are switched on. */
  datatype Filters = Filters(site: bool, properties: bool)
  {
    /** True when at least one filter is switched on. */
    predicate AnyActive()
    {
      site || properties
    }
  }

  /** A filter is active when its configured set is non-null and non-empty;
      a `null` set and an empty one are alike. */
  function GetFilters(cfg: Config): (f: Filters)
    ensures f.site <==> Entries(cfg.sites) != {}
    ensures f.properties <==> Entries(cfg.properties) != {}
  {
    Filters(cfg.sites.Some? && |cfg.sites.value| > 0,
            cfg.properties.Some? && |cfg.properties.value| > 0)
  }

  /** The host handle of a row: its store reference and its uuid. */
  function RefOf(node: Node): NodeRef
  {
    NodeRef(node.storeRef, node.uuid)
  }

  /** The site check: the node lies in a site, and that site is allowed. */
  predicate SiteAllowed(ss: SiteService, ref: NodeRef, sites: set<string>)
  {
    match ss.getSiteShortName(ref)
    case Some(name) => name in sites
    case None => false
  }

  /** One property entry holds of a node: a malformed entry always holds;
      a well-formed one holds when the node's current value is the string
      the entry names. */
  predicate EntryHolds(ns: NodeService, ref: NodeRef, entry: string)
  {
    match ParseEntry(entry)
    case None => true
    case Some((qName, value)) => ns.getProperty(ref, qName) == Some(Text(value))
  }

  /** The property check: every configured entry holds. */
  predicate PropertiesMatch(ns: NodeService, ref: NodeRef, entries: set<string>)
  {
    forall entry :: entry in entries ==> EntryHolds(ns, ref, entry)
  }

  /** The property check over one more entry is the check so far and that
      entry's own. */
  lemma PropertiesMatchStep(ns: NodeService, ref: NodeRef, entries: set<string>, entry: string)
    ensures PropertiesMatch(ns, ref, entries + {entry})
        == (PropertiesMatch(ns, ref, entries) && EntryHolds(ns, ref, entry))
  {
    if PropertiesMatch(ns, ref, entries) && EntryHolds(ns, ref, entry) {
      forall e | e in entries + {entry}
        ensures EntryHolds(ns, ref, e)
      {
        if e != entry {
          assert e in entries;
        }
      }
    }
  }

  /** Whether an active filter pass keeps a node: it still exists, and it
      passes each active check. */
  predicate Keep(cfg: Config, ns: NodeService, ss: SiteService, node: Node)
  {
    var f := GetFilters(cfg);
    ns.nodeExists(RefOf(node))
    && (f.site ==> SiteAllowed(ss, RefOf(node), Entries(cfg.sites)))
    && (f.properties ==> PropertiesMatch(ns, RefOf(node), Entries(cfg.properties)))
  }

  /** The kept nodes of a list, in list order. */
  function Select(cfg: Config, ns: NodeService, ss: SiteService, nodes: seq<Node>): (r: seq<Node>)
    ensures |r| <= |nodes|
  {
    if nodes == [] then []
    else
      var kept := Select(cfg, ns, ss, nodes[..|nodes| - 1]);
      if Keep(cfg, ns, ss, nodes[|nodes| - 1]) then kept + [nodes[|nodes| - 1]] else kept
  }

  /** What a filter pass returns: the list itself when no filter is active,
      its kept nodes otherwise. */
  function Filtered(cfg: Config, ns: NodeService, ss: SiteService, nodes: seq<Node>): seq<Node>
  {
    if GetFilters(cfg).AnyActive() then Select(cfg, ns, ss, nodes) else nodes
  }

  /** `a` is `b` with some of its elements deleted, the rest in their order. */
  predicate IsSubsequence<T(==)>(a: seq<T>, b: seq<T>)
  {
    if b == [] then a == []
    else
      (a != [] && a[|a| - 1] == b[|b| - 1] && IsSubsequence(a[..|a| - 1], b[..|b| - 1]))
      || IsSubsequence(a, b[..|b| - 1])
  }

  lemma {:induction false} SubsequenceOfItself<T>(s: seq<T>)
    ensures IsSubsequence(s, s)
  {
    if s != [] {
      SubsequenceOfItself(s[..|s| - 1]);
    }
  }

  /** Selection only deletes: kept nodes stay in input order. */
  lemma {:induction false} SelectIsSubsequence(cfg: Config, ns: NodeService, ss: SiteService, nodes: seq<Node>)
    ensures IsSubsequence(Select(cfg, ns, ss, nodes), nodes)
  {
    if nodes != [] {
      var init := nodes[..|nodes| - 1];
      SelectIsSubsequence(cfg, ns, ss, init);
      var kept := Select(cfg, ns, ss, init);
      if Keep(cfg, ns, ss, nodes[|nodes| - 1]) {
        assert (kept + [nodes[|nodes| - 1]])[..|kept|] == kept;
      }
    }
  }

  /** A kept node appears as often as in the input, a dropped one not at all:
      selection neither duplicates nor invents nodes. */
  lemma {:induction false} SelectCount(cfg: Config, ns: NodeService, ss: SiteService, nodes: seq<Node>, x: Node)
    ensures multiset(Select(cfg, ns, ss, nodes))[x] == if Keep(cfg, ns, ss, x) then multiset(nodes)[x] else 0
  {
    if nodes != [] {
      var init := nodes[..|nodes| - 1];
      SelectCount(cfg, ns, ss, init, x);
      assert nodes == init + [nodes[|nodes| - 1]];
    }
  }

  /** With no filter active the pass returns its input as it is, nodes that
      no longer exist included. */
  lemma FilteredPassThrough(cfg: Config, ns: NodeService, ss: SiteService, nodes: seq<Node>)
    requires Entries(cfg.sites) == {} && Entries(cfg.properties) == {}
    ensures Filtered(cfg, ns, ss, nodes) == nodes
  {
  }

  /** Whatever the configuration, the pass returns a subsequence of its input
      that repeats no node more often than the input does. */
  lemma FilteredOrderPreserving(cfg: Config, ns: NodeService, ss: SiteService, nodes: seq<Node>, x: Node)
    ensures IsSubsequence(Filtered(cfg, ns, ss, nodes), nodes)
    ensures multiset(Filtered(cfg, ns, ss, nodes))[x] <= multiset(nodes)[x]
  {
    if GetFilters(cfg).AnyActive() {
      SelectIsSubsequence(cfg, ns, ss, nodes);
      SelectCount(cfg, ns, ss, nodes, x);
    } else {
      SubsequenceOfItself(nodes);
    }
  }

  /** With a filter active, every returned node still exists; lies in an
      allowed site when the site filter is active; and, when the property
      filter is active, holds for each well-formed entry exactly the string
      value that entry names. */
  lemma FilteredSound(cfg: Config, ns: NodeService, ss: SiteService, nodes: seq<Node>, x: Node)
    requires GetFilters(cfg).AnyActive()
    requires x in Filtered(cfg, ns, ss, nodes)
    ensures x in nodes
    ensures ns.nodeExists(RefOf(x))
    ensures Entries(cfg.sites) != {} ==>
      ss.getSiteShortName(RefOf(x)).Some? && ss.getSiteShortName(RefOf(x)).value in Entries(cfg.sites)
    ensures Entries(cfg.properties) != {} ==>
      forall entry :: entry in Entries(cfg.properties) && ParseEntry(entry).Some? ==>
        ns.getProperty(RefOf(x), ParseEntry(entry).value.0) == Some(Text(ParseEntry(entry).value.1))
  {
    SelectCount(cfg, ns, ss, nodes, x);
    assert x in multiset(Select(cfg, ns, ss, nodes));
    assert Keep(cfg, ns, ss, x);
    forall entry | entry in Entries(cfg.properties) && ParseEntry(entry).Some? && Entries(cfg.properties) != {}
      ensures ns.getProperty(RefOf(x), ParseEntry(entry).value.0) == Some(Text(ParseEntry(entry).value.1))
    {
      assert EntryHolds(ns, RefOf(x), entry);
    }
  }

  /** With a filter active, every input node that passes all active checks is
      returned. */
  lemma FilteredComplete(cfg: Config, ns: NodeService, ss: SiteService, nodes: seq<Node>, x: Node)
    requires GetFilters(cfg).AnyActive()
    requires x in nodes && Keep(cfg, ns, ss, x)
    ensures x in Filtered(cfg, ns, ss, nodes)
  {
    SelectCount(cfg, ns, ss, nodes, x);
    assert x in multiset(Select(cfg, ns, ss, nodes));
  }

  /** Two configurations that keep the same nodes select the same list. */
  lemma {:induction false} SelectSameKeep(cfg: Config, cfg': Config, ns: NodeService, ss: SiteService, nodes: seq<Node>)
    requires forall x :: x in nodes ==> Keep(cfg, ns, ss, x) == Keep(cfg', ns, ss, x)
    ensures Select(cfg, ns, ss, nodes) == Select(cfg', ns, ss, nodes)
  {
    if nodes != [] {
      SelectSameKeep(cfg, cfg', ns, ss, nodes[..|nodes| - 1]);
    }
  }

  /** Once the property filter is active, adding a malformed entry to it
      changes no outcome. */
  lemma MalformedEntryIgnored(cfg: Config, ns: NodeService, ss: SiteService, nodes: seq<Node>, entry: string)
    requires ParseEntry(entry).None?
    requires Entries(cfg.properties) != {}
    ensures Filtered(cfg.(properties := Some(Entries(cfg.properties) + {entry})), ns, ss, nodes)
         == Filtered(cfg, ns, ss, nodes)
  {
    var cfg' := cfg.(properties := Some(Entries(cfg.properties) + {entry}));
    assert GetFilters(cfg') == GetFilters(cfg);
    forall x | x in nodes
      ensures Keep(cfg', ns, ss, x) == Keep(cfg, ns, ss, x)
    {
      assert EntryHolds(ns, RefOf(x), entry);
      PropertiesMatchStep(ns, RefOf(x), Entries(cfg.properties), entry);
    }
    SelectSameKeep(cfg', cfg, ns, ss, nodes);
  }

  /** A property set holding only a malformed entry still switches the filter
      on, so a node that no longer exists is dropped, where with no property
      set it would be returned. */
  lemma MalformedOnlyEntryStillFilters(ns: NodeService, ss: SiteService, node: Node)
    requires !ns.nodeExists(RefOf(node))
    ensures Filtered(UNCONFIGURED.(properties := Some({"title"})), ns, ss, [node]) == []
    ensures Filtered(UNCONFIGURED, ns, ss, [node]) == [node]
  {
    assert [node][..0] == [];
  }

  /** Sites `{"engineering"}`; a node in that site, one in "marketing" and one
      in no site: only the first is returned. */
  lemma SiteFilterExample(n1: Node, n2: Node, n3: Node)
    requires RefOf(n1).id == "n1" && RefOf(n2).id == "n2" && RefOf(n3).id == "n3"
    ensures Filtered(UNCONFIGURED.(sites := Some({"engineering"})),
                     NodeService(ref => true, (ref, qName) => None),
                     SiteService((ref: NodeRef) => if ref.id == "n1" then Some("engineering")
                                        else if ref.id == "n2" then Some("marketing")
                                        else None),
                     [n1, n2, n3])
         == [n1]
  {
    var cfg := UNCONFIGURED.(sites := Some({"engineering"}));
    var ns := NodeService(ref => true, (ref, qName) => None);
    var ss := SiteService((ref: NodeRef) => if ref.id == "n1" then Some("engineering")
                                 else if ref.id == "n2" then Some("marketing")
                                 else None);
    assert Keep(cfg, ns, ss, n1) && !Keep(cfg, ns, ss, n2) && !Keep(cfg, ns, ss, n3);
    assert [n1][..0] == [];
    assert Select(cfg, ns, ss, [n1]) == [n1];
    assert [n1, n2][..1] == [n1];
    assert Select(cfg, ns, ss, [n1, n2]) == [n1];
    assert [n1, n2, n3][..2] == [n1, n2];
  }
}
