/** The vendor graph as the program runs it: two dicts updated in place. */
module VendorGraph {
  import opened Wrappers
  import opened StableSort
  import opened Folds
  import opened G = Graph

  class KnowledgeGraph {
    const norm: Norm
    var order: seq<string>
    var vendors: map<string, Node>
    var payments: map<string, seq<Edge>>

    function Contents(): Graph
      reads this
    {
      G.Graph(order, vendors, payments)
    }

    /** Both dicts have the same keys. */
    predicate Valid()
      reads this
    {
      vendors.Keys == payments.Keys
    }

    constructor (norm: Norm)
      ensures Valid() && this.norm == norm && Contents() == EMPTY
    {
      this.norm := norm;
      order, vendors, payments := [], map[], map[];
    }

    method AddVendor(name: string, category: Option<string>, attrs: Attrs)
      requires Valid()
      modifies this
      ensures Valid() && Contents() == G.AddVendor(norm, old(Contents()), name, category, attrs)
    {
      var key := norm(name);
      var existing := if key in vendors then Some(vendors[key].category) else None;
      var node := Node(Target(key), name, "vendor", OrOther(category, existing), map[]);
      node := Update(node, attrs);
      if key !in vendors { order := order + [key]; }
      vendors := vendors[key := node];
      if key !in payments { payments := payments[key := []]; }
    }

    method RecordPayment(vendor: string, amount: int, date: string, category: Option<string>, flag: Option<bool>)
      requires Valid()
      modifies this
      ensures Valid() && Contents() == G.RecordPayment(norm, old(Contents()), vendor, amount, date, category, flag)
    {
      var key := norm(vendor);
      if key !in vendors {
        AddVendor(vendor, category, map[]);
      }
      var edge := Edge(Target(key), amount, date, OrOther(category, Some(vendors[key].category)), flag);
      payments := payments[key := payments[key] + [edge]];
      payments := payments[key := Sort(ByDate(), payments[key])];
    }

    /** The label of a node, or the key itself where there is none. */
    method LabelOf(key: string) returns (name: string)
      ensures name == LoadName(Contents(), key)
    {
      name := key;
      if key in vendors && vendors[key].name != "" {
        name := vendors[key].name;
      }
    }

    method LoadRecords(records: seq<GraphRecord>)
      requires Valid()
      modifies this
      ensures Valid() && Contents() == G.LoadRecords(norm, old(Contents()), records)
    {
      for i := 0 to |records|
        invariant Valid() && Contents() == G.LoadRecords(norm, old(Contents()), records[..i])
      {
        assert records[..i + 1][..i] == records[..i];
        match records[i] {
          case NodeRecord(name, category) =>
            AddVendor(name, Some(category), map[]);
          case EdgeRecord(target, amount, date, category) =>
            var key := if "vendor:" <= target then target[7..] else target;
            var name := LabelOf(key);
            RecordPayment(name, amount, date, Some(category), None);
        }
      }
      assert records[..|records|] == records;
    }

    method VendorHistory(name: string) returns (amounts: seq<int>)
      ensures amounts == G.VendorHistory(norm, Contents(), name)
    {
      var key := norm(name);
      amounts := [];
      if key in payments {
        var edges := payments[key];
        for i := 0 to |edges|
          invariant amounts == Amounts(edges[..i])
        {
          amounts := amounts + [edges[i].amount];
        }
        assert edges[..|edges|] == edges;
      }
    }

    /** On the graph of a run: whether some operation named a vendor that normalizes alike. */
    method IsKnownVendor(name: string, ghost ops: seq<Op>) returns (b: bool)
      requires Contents() == Run(norm, ops)
      ensures b <==> Named(norm, ops, name)
    {
      KnownExactly(norm, ops, name);
      b := norm(name) in vendors;
    }

    method RecordEdge(key: string, e: Edge)
      requires Valid()
      modifies this
      ensures Valid() && Contents() == LoadEdge(norm, key, old(Contents()), e)
    {
      var name := LabelOf(key);
      RecordPayment(name, e.amount, e.date, Some(e.category), e.flag);
    }

    method RecordEdges(key: string, edges: seq<Edge>)
      requires Valid()
      modifies this
      ensures Valid() && Contents() == LoadEdges(norm, old(Contents()), key, edges)
    {
      for i := 0 to |edges|
        invariant Valid() && Contents() == LoadEdges(norm, old(Contents()), key, edges[..i])
      {
        FoldNext(EdgeLoader(norm, key), old(Contents()), edges, i);
        RecordEdge(key, edges[i]);
      }
      assert edges[..|edges|] == edges;
    }
  }

  /** `load`. */
  method LoadGraph(norm: Norm, saved: Saved) returns (g: KnowledgeGraph)
    ensures fresh(g) && g.Valid() && g.norm == norm && g.Contents() == Load(norm, saved)
  {
    g := new KnowledgeGraph(norm);
    for i := 0 to |saved.vendors|
      invariant fresh(g) && g.Valid() && g.Contents() == LoadNodes(norm, saved.vendors[..i])
    {
      assert saved.vendors[..i + 1][..i] == saved.vendors[..i];
      g.AddVendor(saved.vendors[i].name, Some(saved.vendors[i].category), map[]);
    }
    assert saved.vendors[..|saved.vendors|] == saved.vendors;
    ghost var start := g.Contents();
    for i := 0 to |saved.payments|
      invariant fresh(g) && g.Valid() && g.Contents() == LoadPayments(norm, start, saved.payments[..i])
    {
      FoldNext(ListLoader(norm), start, saved.payments, i);
      g.RecordEdges(saved.payments[i].0, saved.payments[i].1);
    }
    assert saved.payments[..|saved.payments|] == saved.payments;
  }

  /** Saving a graph and loading it gives a graph with the same contents if and
      only if no node carries extra attributes. */
  method SaveAndLoad(g: KnowledgeGraph) returns (g': KnowledgeGraph)
    requires G.Valid(g.norm, g.Contents())
    ensures fresh(g') && (g'.Contents() == g.Contents() <==> AllPlain(g.norm, g.Contents()))
  {
    var saved := ToDict(g.Contents());
    g' := LoadGraph(g.norm, saved);
    LoadRestores(g.norm, g.Contents());
  }

  /** `ingest_to_graph_records`, with the set of vendor names seen so far. */
  method Ingest(invoices: seq<Invoice>) returns (records: seq<GraphRecord>)
    ensures records == IngestRecords(invoices)
  {
    var seen: set<string> := {};
    records := [];
    for i := 0 to |invoices|
      invariant seen == VendorsIn(invoices[..i]) && records == IngestRecords(invoices[..i])
    {
      var inv := invoices[i];
      assert invoices[..i + 1] == invoices[..i] + [inv];
      SeenStep(invoices[..i], inv);
      IngestNext(invoices[..i], inv);
      if inv.vendor !in seen {
        records := records + [NodeRecord(inv.vendor, inv.category)];
        seen := seen + {inv.vendor};
      }
      records := records + [EdgeRecord(Target(inv.vendor), inv.amount, inv.date, inv.category)];
    }
    assert invoices[..|invoices|] == invoices;
  }

  lemma IngestNext(before: seq<Invoice>, inv: Invoice)
    ensures IngestRecords(before + [inv])
         == IngestRecords(before) + NodePart(inv, inv.vendor in VendorsIn(before)) + [EdgePart(inv)]
    ensures IngestRecords(before) + [] == IngestRecords(before)
  {
    assert (before + [inv])[..|before|] == before;
  }

  lemma SeenStep(invoices: seq<Invoice>, inv: Invoice)
    ensures VendorsIn(invoices + [inv]) == VendorsIn(invoices) + {inv.vendor}
  {
    var all := invoices + [inv];
    forall v ensures v in VendorsIn(all) <==> v in VendorsIn(invoices) || v == inv.vendor {
      if v in VendorsIn(invoices) {
        var i :| 0 <= i < |invoices| && invoices[i].vendor == v;
        assert all[i].vendor == v;
      }
      assert all[|invoices|].vendor == inv.vendor;
    }
  }

  /** `build_graph_from_invoices`. */
  method BuildFromInvoices(norm: Norm, invoices: seq<Invoice>) returns (g: KnowledgeGraph)
    ensures fresh(g) && g.Valid() && g.norm == norm && g.Contents() == BuildGraph(norm, invoices)
  {
    var records := Ingest(invoices);
    g := new KnowledgeGraph(norm);
    g.LoadRecords(records);
  }
}
