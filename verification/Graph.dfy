/** The vendor graph: vendor nodes and dated payment edges, indexed by normalized
    name, with its save and load and its construction from invoices. */
module Graph {
  import opened Wrappers
  import opened StringOrder
  import opened StableSort
  import opened KeyLists
  import opened Folds

  /** `name.lower().strip()`. */
  type Norm = string -> string

  ghost predicate Idempotent(norm: Norm) {
    forall x :: norm(norm(x)) == norm(x)
  }

  /** A vendor node. Extra attributes are kept apart, except that attributes named
      `id`, `label` or `type` overwrite those fields. */
  datatype Node = Node(id: string, name: string, kind: string, category: string, extra: map<string, string>)

  type Attrs = map<string, string>

  datatype Edge = Edge(target: string, amount: int, date: string, category: string, flag: Option<bool>)

  /** `order` is the insertion order that both dicts share. */
  datatype Graph = Graph(order: seq<string>, vendors: map<string, Node>, payments: map<string, seq<Edge>>)

  const EMPTY := Graph([], map[], map[])

  /** `a or b or "Other"`: absent and empty count alike. */
  function OrOther(a: Option<string>, b: Option<string>): (r: string)
    ensures r != ""
  {
    if a.Some? && a.value != "" then a.value
    else if b.Some? && b.value != "" then b.value
    else "Other"
  }

  function Target(key: string): string {
    "vendor:" + key
  }

  function PlainNode(key: string, name: string, category: string): Node {
    Node(Target(key), name, "vendor", category, map[])
  }

  /** `node.update(attrs)`. */
  function Update(n: Node, attrs: Attrs): (r: Node)
    ensures r.category == n.category
    ensures attrs == map[] ==> r == n
  {
    if attrs == map[] then n
    else Node(if "id" in attrs then attrs["id"] else n.id,
              if "label" in attrs then attrs["label"] else n.name,
              if "type" in attrs then attrs["type"] else n.kind,
              n.category,
              n.extra + (attrs - {"id", "label", "type"}))
  }

  function CategoryOf(g: Graph, key: string): Option<string> {
    if key in g.vendors then Some(g.vendors[key].category) else None
  }

  function AddVendor(norm: Norm, g: Graph, name: string, category: Option<string>, attrs: Attrs): Graph {
    var key := norm(name);
    var node := Update(PlainNode(key, name, OrOther(category, CategoryOf(g, key))), attrs);
    Graph(if key in g.vendors then g.order else g.order + [key],
          g.vendors[key := node],
          if key in g.payments then g.payments else g.payments[key := []])
  }

  function ByDate(): Edge -> string {
    (e: Edge) => e.date
  }

  function WithVendor(norm: Norm, g: Graph, vendor: string, category: Option<string>): Graph {
    if norm(vendor) in g.vendors then g else AddVendor(norm, g, vendor, category, map[])
  }

  /** The edge is appended and the list sorted again by date. */
  function RecordPayment(norm: Norm, g: Graph, vendor: string, amount: int, date: string,
                         category: Option<string>, flag: Option<bool>): Graph {
    var key := norm(vendor);
    var g1 := WithVendor(norm, g, vendor, category);
    var edge := Edge(Target(key), amount, date, OrOther(category, CategoryOf(g1, key)), flag);
    g1.(payments := g1.payments[key := Sort(ByDate(), EdgesOf(g1, key) + [edge])])
  }

  function EdgesOf(g: Graph, key: string): seq<Edge> {
    if key in g.payments then g.payments[key] else []
  }

  function Amounts(edges: seq<Edge>): (r: seq<int>)
    ensures |r| == |edges|
  {
    seq(|edges|, i requires 0 <= i < |edges| => edges[i].amount)
  }

  /** Amounts paid to a vendor, in ascending order of date. */
  function VendorHistory(norm: Norm, g: Graph, name: string): seq<int> {
    Amounts(EdgesOf(g, norm(name)))
  }

  // ---- The graph refines a list of payments ----

  datatype Op =
    | Vendor(name: string, category: Option<string>, attrs: Attrs)
    | Pay(vendor: string, amount: int, date: string, category: Option<string>, flag: Option<bool>)

  function Step(norm: Norm, g: Graph, op: Op): Graph {
    match op
    case Vendor(name, category, attrs) => AddVendor(norm, g, name, category, attrs)
    case Pay(vendor, amount, date, category, flag) => RecordPayment(norm, g, vendor, amount, date, category, flag)
  }

  function Run(norm: Norm, ops: seq<Op>): Graph {
    if ops == [] then EMPTY else Step(norm, Run(norm, ops[..|ops| - 1]), ops[|ops| - 1])
  }

  /** The amounts and dates recorded, in order, under names that normalize to `key`. */
  function PaidTo(norm: Norm, ops: seq<Op>, key: string): seq<(int, string)> {
    if ops == [] then []
    else PaidTo(norm, ops[..|ops| - 1], key) + Paid(norm, ops[|ops| - 1], key)
  }

  function Paid(norm: Norm, op: Op, key: string): seq<(int, string)> {
    if op.Pay? && norm(op.vendor) == key then [(op.amount, op.date)] else []
  }

  function Dates(): ((int, string)) -> string {
    (p: (int, string)) => p.1
  }

  function AmountsAndDates(edges: seq<Edge>): (r: seq<(int, string)>)
    ensures |r| == |edges|
  {
    seq(|edges|, i requires 0 <= i < |edges| => (edges[i].amount, edges[i].date))
  }

  lemma {:induction false} InsertCommutes(edges: seq<Edge>, e: Edge)
    ensures AmountsAndDates(Insert(ByDate(), edges, e)) == Insert(Dates(), AmountsAndDates(edges), (e.amount, e.date))
  {
    var p := AmountsAndDates(edges);
    if edges != [] {
      var init, last := edges[..|edges| - 1], edges[|edges| - 1];
      assert p[..|p| - 1] == AmountsAndDates(init) && p[|p| - 1] == (last.amount, last.date);
      if Less(e.date, last.date) {
        InsertCommutes(init, e);
        assert AmountsAndDates(Insert(ByDate(), init, e) + [last])
            == AmountsAndDates(Insert(ByDate(), init, e)) + [(last.amount, last.date)];
      } else {
        assert AmountsAndDates(edges + [e]) == p + [(e.amount, e.date)];
      }
    }
  }

  lemma SortedAfterPayment(edges: seq<Edge>, paid: seq<(int, string)>, edge: Edge)
    requires Sorted(ByDate(), edges) && AmountsAndDates(edges) == Sort(Dates(), paid)
    ensures var e := Sort(ByDate(), edges + [edge]);
            Sorted(ByDate(), e) && AmountsAndDates(e) == Sort(Dates(), paid + [(edge.amount, edge.date)])
  {
    SortSorted(ByDate(), edges);
    assert (edges + [edge])[..|edges|] == edges;
    InsertCommutes(edges, edge);
    SortIsStable(ByDate(), edges + [edge]);
    assert (paid + [(edge.amount, edge.date)])[..|paid|] == paid;
  }

  /** One operation on one key: a payment to it is added to its sorted edges,
      anything else leaves them. */
  lemma StepOnEdges(norm: Norm, g: Graph, op: Op, key: string)
    requires g.vendors.Keys == g.payments.Keys
    ensures Step(norm, g, op).vendors.Keys == Step(norm, g, op).payments.Keys
    ensures if op.Pay? && norm(op.vendor) == key
            then exists edge: Edge :: edge.amount == op.amount && edge.date == op.date
                   && EdgesOf(Step(norm, g, op), key) == Sort(ByDate(), EdgesOf(g, key) + [edge])
            else EdgesOf(Step(norm, g, op), key) == EdgesOf(g, key)
  {
    if op.Pay? {
      var g1 := WithVendor(norm, g, op.vendor, op.category);
      assert EdgesOf(g1, key) == EdgesOf(g, key);
    }
  }

  /** The edges under `key` are the payments `paid`, sorted once by date. */
  predicate EdgesMatch(g: Graph, key: string, paid: seq<(int, string)>) {
    && g.vendors.Keys == g.payments.Keys
    && Sorted(ByDate(), EdgesOf(g, key))
    && AmountsAndDates(EdgesOf(g, key)) == Sort(Dates(), paid)
  }

  lemma StepMatches(norm: Norm, g: Graph, op: Op, key: string, paid: seq<(int, string)>)
    requires EdgesMatch(g, key, paid)
    ensures EdgesMatch(Step(norm, g, op), key, paid + Paid(norm, op, key))
  {
    StepOnEdges(norm, g, op, key);
    if op.Pay? && norm(op.vendor) == key {
      var edges := EdgesOf(g, key);
      var edge: Edge :| edge.amount == op.amount && edge.date == op.date
                        && EdgesOf(Step(norm, g, op), key) == Sort(ByDate(), edges + [edge]);
      SortedAfterPayment(edges, paid, edge);
    } else {
      assert paid + Paid(norm, op, key) == paid;
    }
  }

  lemma {:induction false} EdgesAreSortedPayments(norm: Norm, ops: seq<Op>, key: string)
    ensures EdgesMatch(Run(norm, ops), key, PaidTo(norm, ops, key))
  {
    if ops != [] {
      EdgesAreSortedPayments(norm, ops[..|ops| - 1], key);
      StepMatches(norm, Run(norm, ops[..|ops| - 1]), ops[|ops| - 1], key, PaidTo(norm, ops[..|ops| - 1], key));
    }
  }

  /** `vendor_history` is the stable sort by date of all the amounts recorded under
      names that normalize alike, in every run of additions and payments. */
  lemma HistoryRefinesPayments(norm: Norm, ops: seq<Op>, name: string)
    ensures var sorted := Sort(Dates(), PaidTo(norm, ops, norm(name)));
            var history := VendorHistory(norm, Run(norm, ops), name);
            |history| == |sorted| && forall i :: 0 <= i < |sorted| ==> history[i] == sorted[i].0
  {
    EdgesAreSortedPayments(norm, ops, norm(name));
    var edges := EdgesOf(Run(norm, ops), norm(name));
    assert forall i :: 0 <= i < |edges| ==> AmountsAndDates(edges)[i].0 == edges[i].amount;
  }

  // ---- Graphs that a run builds ----

  predicate GoodEdges(key: string, edges: seq<Edge>) {
    && Sorted(ByDate(), edges)
    && forall i :: 0 <= i < |edges| ==> edges[i].target == Target(key) && edges[i].category != ""
  }

  predicate GoodDomains(g: Graph) {
    NoRepeats(g.order) && (forall k :: k in g.order ==> k in g.vendors)
    && (forall k :: k in g.vendors ==> k in g.order) && g.vendors.Keys == g.payments.Keys
  }

  predicate GoodNodes(norm: Norm, g: Graph) {
    forall k :: k in g.vendors ==> norm(k) == k && g.vendors[k].category != ""
  }

  predicate Valid(norm: Norm, g: Graph) {
    GoodDomains(g) && GoodNodes(norm, g) && forall k :: k in g.payments ==> GoodEdges(k, g.payments[k])
  }

  /** A node without extra attributes. */
  predicate IsPlain(norm: Norm, key: string, n: Node) {
    n == PlainNode(key, n.name, n.category) && norm(n.name) == key
  }

  predicate AllPlain(norm: Norm, g: Graph) {
    forall k :: k in g.vendors ==> IsPlain(norm, k, g.vendors[k])
  }

  lemma AddVendorValid(norm: Norm, g: Graph, name: string, category: Option<string>, attrs: Attrs)
    requires Idempotent(norm) && Valid(norm, g)
    ensures Valid(norm, AddVendor(norm, g, name, category, attrs))
  {
    var g' := AddVendor(norm, g, name, category, attrs);
    assert norm(norm(name)) == norm(name);
    AddVendorDomains(norm, g, name, category, attrs);
    assert GoodNodes(norm, g');
  }

  lemma AddVendorDomains(norm: Norm, g: Graph, name: string, category: Option<string>, attrs: Attrs)
    requires GoodDomains(g)
    ensures GoodDomains(AddVendor(norm, g, name, category, attrs))
  {
  }

  lemma RecordPaymentValid(norm: Norm, g: Graph, vendor: string, amount: int, date: string,
                           category: Option<string>, flag: Option<bool>)
    requires Idempotent(norm) && Valid(norm, g)
    ensures Valid(norm, RecordPayment(norm, g, vendor, amount, date, category, flag))
  {
    AddVendorValid(norm, g, vendor, category, map[]);
    var g1 := WithVendor(norm, g, vendor, category);
    var key := norm(vendor);
    assert Valid(norm, g1) && key in g1.payments;
    var edge := Edge(Target(key), amount, date, OrOther(category, CategoryOf(g1, key)), flag);
    SortGood(key, g1.payments[key], edge);
    EdgesReplacedValid(norm, g1, key, Sort(ByDate(), g1.payments[key] + [edge]));
  }

  lemma EdgesReplacedValid(norm: Norm, g: Graph, key: string, edges: seq<Edge>)
    requires Valid(norm, g) && key in g.payments && GoodEdges(key, edges)
    ensures Valid(norm, g.(payments := g.payments[key := edges]))
  {
    var g' := g.(payments := g.payments[key := edges]);
    assert GoodDomains(g') && GoodNodes(norm, g');
  }

  lemma SortGood(key: string, edges: seq<Edge>, e: Edge)
    requires GoodEdges(key, edges) && e.target == Target(key) && e.category != ""
    ensures GoodEdges(key, Sort(ByDate(), edges + [e]))
  {
    SortSorted(ByDate(), edges);
    assert (edges + [e])[..|edges|] == edges;
    InsertSorted(ByDate(), edges, e);
  }

  lemma StepValid(norm: Norm, g: Graph, op: Op)
    requires Idempotent(norm) && Valid(norm, g)
    ensures Valid(norm, Step(norm, g, op))
  {
    match op
    case Vendor(name, category, attrs) => AddVendorValid(norm, g, name, category, attrs);
    case Pay(vendor, amount, date, category, flag) => RecordPaymentValid(norm, g, vendor, amount, date, category, flag);
  }

  lemma {:induction false} RunValid(norm: Norm, ops: seq<Op>)
    requires Idempotent(norm)
    ensures Valid(norm, Run(norm, ops))
  {
    if ops != [] {
      var g, op := Run(norm, ops[..|ops| - 1]), ops[|ops| - 1];
      RunValid(norm, ops[..|ops| - 1]);
      StepValid(norm, g, op);
    }
  }

  // ---- Save and load ----

  datatype Saved = Saved(vendors: seq<Node>, payments: seq<(string, seq<Edge>)>)

  /** `to_dict`. */
  function ToDict(g: Graph): Saved
    requires GoodDomains(g)
  {
    Saved(seq(|g.order|, i requires 0 <= i < |g.order| => g.vendors[g.order[i]]),
          seq(|g.order|, i requires 0 <= i < |g.order| => (g.order[i], g.payments[g.order[i]])))
  }

  function LoadNodes(norm: Norm, nodes: seq<Node>): Graph {
    if nodes == [] then EMPTY
    else
      var n := nodes[|nodes| - 1];
      AddVendor(norm, LoadNodes(norm, nodes[..|nodes| - 1]), n.name, Some(n.category), map[])
  }

  /** The name an edge is recorded under when it is loaded. */
  function LoadName(g: Graph, key: string): string {
    if key in g.vendors && g.vendors[key].name != "" then g.vendors[key].name else key
  }

  function LoadEdge(norm: Norm, key: string, g: Graph, e: Edge): Graph {
    RecordPayment(norm, g, LoadName(g, key), e.amount, e.date, Some(e.category), e.flag)
  }

  function EdgeLoader(norm: Norm, key: string): (Graph, Edge) -> Graph {
    (g: Graph, e: Edge) => LoadEdge(norm, key, g, e)
  }

  function LoadEdges(norm: Norm, g: Graph, key: string, edges: seq<Edge>): Graph {
    Fold(EdgeLoader(norm, key), g, edges)
  }

  function ListLoader(norm: Norm): (Graph, (string, seq<Edge>)) -> Graph {
    (g: Graph, p: (string, seq<Edge>)) => LoadEdges(norm, g, p.0, p.1)
  }

  function LoadPayments(norm: Norm, g: Graph, payments: seq<(string, seq<Edge>)>): Graph {
    Fold(ListLoader(norm), g, payments)
  }

  /** `load`. */
  function Load(norm: Norm, s: Saved): Graph {
    LoadPayments(norm, LoadNodes(norm, s.vendors), s.payments)
  }

  /** Whatever is loaded has plain nodes only. */
  lemma AddVendorPlain(norm: Norm, g: Graph, name: string, category: Option<string>)
    requires AllPlain(norm, g)
    ensures AllPlain(norm, AddVendor(norm, g, name, category, map[]))
  {
  }

  lemma {:induction false} LoadNodesPlain(norm: Norm, nodes: seq<Node>)
    ensures AllPlain(norm, LoadNodes(norm, nodes))
  {
    if nodes != [] {
      LoadNodesPlain(norm, nodes[..|nodes| - 1]);
      var n := nodes[|nodes| - 1];
      AddVendorPlain(norm, LoadNodes(norm, nodes[..|nodes| - 1]), n.name, Some(n.category));
    }
  }

  function Plain(norm: Norm): Graph -> bool {
    (g: Graph) => AllPlain(norm, g)
  }

  lemma LoadEdgesPlain(norm: Norm, g: Graph, key: string, edges: seq<Edge>)
    requires AllPlain(norm, g)
    ensures AllPlain(norm, LoadEdges(norm, g, key, edges))
  {
    var f := EdgeLoader(norm, key);
    forall h, e | Plain(norm)(h) ensures Plain(norm)(f(h, e)) {
      AddVendorPlain(norm, h, LoadName(h, key), Some(e.category));
    }
    FoldKeeps(f, g, edges, Plain(norm));
  }

  lemma LoadPaymentsPlain(norm: Norm, g: Graph, payments: seq<(string, seq<Edge>)>)
    requires AllPlain(norm, g)
    ensures AllPlain(norm, LoadPayments(norm, g, payments))
  {
    var f := ListLoader(norm);
    forall h, p | Plain(norm)(h) ensures Plain(norm)(f(h, p)) {
      LoadEdgesPlain(norm, h, p.0, p.1);
    }
    FoldKeeps(f, g, payments, Plain(norm));
  }

  function Restrict<V>(m: map<string, V>, ks: seq<string>): map<string, V> {
    map k | k in m && k in ks :: m[k]
  }

  function NoEdges(payments: map<string, seq<Edge>>): map<string, seq<Edge>> {
    map k | k in payments :: []
  }

  lemma RestrictStep<V>(m: map<string, V>, ks: seq<string>, k: string)
    requires k in m
    ensures Restrict(m, ks + [k]) == Restrict(m, ks)[k := m[k]]
  {
  }

  lemma RestrictAll<V>(m: map<string, V>, ks: seq<string>)
    requires forall k :: k in m ==> k in ks
    ensures Restrict(m, ks) == m
  {
  }

  /** The part of `g` that stands after its first `n` nodes are loaded. */
  function NodesOnly(g: Graph, n: nat): Graph
    requires n <= |g.order| && GoodDomains(g)
  {
    Graph(g.order[..n], Restrict(g.vendors, g.order[..n]), Restrict(NoEdges(g.payments), g.order[..n]))
  }

  lemma OrderStep(g: Graph, n: nat)
    requires GoodDomains(g) && n < |g.order|
    ensures g.order[..n + 1] == g.order[..n] + [g.order[n]] && g.order[n] !in g.order[..n]
    ensures forall j :: j in g.order[..n + 1] <==> j in g.order[..n] || j == g.order[n]
  {
  }

  lemma NodesStep(g: Graph, n: nat)
    requires GoodDomains(g) && n < |g.order|
    ensures var k := g.order[n];
            && k !in NodesOnly(g, n).vendors && k !in NodesOnly(g, n).payments
            && NodesOnly(g, n + 1) == Graph(NodesOnly(g, n).order + [k], NodesOnly(g, n).vendors[k := g.vendors[k]],
                                            NodesOnly(g, n).payments[k := []])
  {
    OrderStep(g, n);
    RestrictStep(g.vendors, g.order[..n], g.order[n]);
    RestrictStep(NoEdges(g.payments), g.order[..n], g.order[n]);
  }

  lemma NextNode(norm: Norm, g: Graph, n: nat)
    requires Valid(norm, g) && AllPlain(norm, g) && n < |g.order|
    ensures var node := g.vendors[g.order[n]];
            AddVendor(norm, NodesOnly(g, n), node.name, Some(node.category), map[]) == NodesOnly(g, n + 1)
  {
    assert IsPlain(norm, g.order[n], g.vendors[g.order[n]]);
    NodesStep(g, n);
  }

  lemma {:induction false} LoadNodesRestores(norm: Norm, g: Graph, n: nat)
    requires Valid(norm, g) && AllPlain(norm, g) && n <= |g.order|
    ensures LoadNodes(norm, ToDict(g).vendors[..n]) == NodesOnly(g, n)
  {
    if n > 0 {
      LoadNodesRestores(norm, g, n - 1);
      assert ToDict(g).vendors[..n][..n - 1] == ToDict(g).vendors[..n - 1];
      NextNode(norm, g, n - 1);
    }
  }

  /** The graph with the payments of its first `n` vendors, and `m` edges of the next. */
  function PaymentsUpTo(g: Graph, n: nat, m: nat): Graph
    requires n <= |g.order| && GoodDomains(g)
    requires n < |g.order| ==> m <= |g.payments[g.order[n]]|
  {
    Graph(g.order, g.vendors,
          map k | k in g.payments ::
            if k in g.order[..n] then g.payments[k]
            else if n < |g.order| && k == g.order[n] then g.payments[k][..m]
            else [])
  }

  lemma EdgesStep(g: Graph, n: nat, m: nat)
    requires GoodDomains(g) && n < |g.order| && m < |g.payments[g.order[n]]|
    ensures var k, h := g.order[n], PaymentsUpTo(g, n, m);
            && k in h.payments && h.payments[k] == g.payments[k][..m]
            && PaymentsUpTo(g, n, m + 1) == h.(payments := h.payments[k := g.payments[k][..m + 1]])
  {
    OrderStep(g, n);
    var k, h := g.order[n], PaymentsUpTo(g, n, m);
    assert PaymentsUpTo(g, n, m + 1).payments == h.payments[k := g.payments[k][..m + 1]];
  }

  lemma SortedPrefix(key: string, edges: seq<Edge>, m: nat)
    requires GoodEdges(key, edges) && m < |edges|
    ensures Sort(ByDate(), edges[..m] + [edges[m]]) == edges[..m + 1]
  {
    assert edges[..m] + [edges[m]] == edges[..m + 1];
    SortSorted(ByDate(), edges[..m + 1]);
  }

  /** Recording the next saved edge of the vendor being loaded. */
  lemma NextEdge(norm: Norm, g: Graph, n: nat, m: nat)
    requires Valid(norm, g) && AllPlain(norm, g) && n < |g.order|
    requires m < |g.payments[g.order[n]]|
    ensures var k, h := g.order[n], PaymentsUpTo(g, n, m);
            var e := g.payments[k][m];
            LoadEdge(norm, k, h, e) == PaymentsUpTo(g, n, m + 1)
  {
    var k, h := g.order[n], PaymentsUpTo(g, n, m);
    assert IsPlain(norm, k, g.vendors[k]) && GoodEdges(k, g.payments[k]);
    assert norm(LoadName(h, k)) == k;
    EdgesStep(g, n, m);
    SortedPrefix(k, g.payments[k], m);
  }

  /** The graphs on the way, while the edges of vendor `n` are loaded. */
  function LoadingEdges(g: Graph, n: nat): nat -> Graph
    requires GoodDomains(g) && n < |g.order|
  {
    (m: nat) => if m <= |g.payments[g.order[n]]| then PaymentsUpTo(g, n, m) else g
  }

  lemma LoadEdgesRestores(norm: Norm, g: Graph, n: nat)
    requires Valid(norm, g) && AllPlain(norm, g) && n < |g.order|
    ensures var edges := g.payments[g.order[n]];
            LoadEdges(norm, PaymentsUpTo(g, n, 0), g.order[n], edges) == PaymentsUpTo(g, n, |edges|)
  {
    var key, edges, h := g.order[n], g.payments[g.order[n]], LoadingEdges(g, n);
    forall i | 0 <= i < |edges| ensures h(i + 1) == EdgeLoader(norm, key)(h(i), edges[i]) {
      NextEdge(norm, g, n, i);
    }
    FoldFollows(EdgeLoader(norm, key), edges, h, |edges|);
    assert edges[..|edges|] == edges;
  }

  lemma NextVendor(g: Graph, n: nat)
    requires GoodDomains(g) && n < |g.order|
    ensures PaymentsUpTo(g, n, |g.payments[g.order[n]]|) == PaymentsUpTo(g, n + 1, 0)
  {
    OrderStep(g, n);
    var k := g.order[n];
    assert n + 1 < |g.order| ==> g.order[n + 1] !in g.order[..n + 1];
    assert g.payments[k][..|g.payments[k]|] == g.payments[k];
    assert n + 1 < |g.order| ==> g.payments[g.order[n + 1]][..0] == [];
    assert PaymentsUpTo(g, n, |g.payments[k]|).payments == PaymentsUpTo(g, n + 1, 0).payments;
  }

  /** The graphs on the way, while the lists of edges are loaded. */
  function LoadingLists(g: Graph): nat -> Graph
    requires GoodDomains(g)
  {
    (n: nat) => if n <= |g.order| then PaymentsUpTo(g, n, 0) else g
  }

  lemma NextList(norm: Norm, g: Graph, n: nat)
    requires Valid(norm, g) && AllPlain(norm, g) && n < |g.order|
    ensures LoadEdges(norm, PaymentsUpTo(g, n, 0), g.order[n], g.payments[g.order[n]]) == PaymentsUpTo(g, n + 1, 0)
  {
    LoadEdgesRestores(norm, g, n);
    NextVendor(g, n);
  }

  lemma NextLoaded(norm: Norm, g: Graph, n: nat)
    requires Valid(norm, g) && AllPlain(norm, g) && n < |g.order|
    ensures LoadingLists(g)(n + 1) == ListLoader(norm)(LoadingLists(g)(n), ToDict(g).payments[n])
  {
    NextList(norm, g, n);
  }

  lemma LoadPaymentsRestores(norm: Norm, g: Graph)
    requires Valid(norm, g) && AllPlain(norm, g)
    ensures LoadPayments(norm, PaymentsUpTo(g, 0, 0), ToDict(g).payments) == PaymentsUpTo(g, |g.order|, 0)
  {
    var ps, h := ToDict(g).payments, LoadingLists(g);
    forall i | 0 <= i < |ps| ensures h(i + 1) == ListLoader(norm)(h(i), ps[i]) {
      NextLoaded(norm, g, i);
    }
    FoldFollows(ListLoader(norm), ps, h, |ps|);
    assert ps[..|ps|] == ps;
  }

  lemma WholeGraph(norm: Norm, g: Graph)
    requires Valid(norm, g)
    ensures NodesOnly(g, |g.order|) == PaymentsUpTo(g, 0, 0) && PaymentsUpTo(g, |g.order|, 0) == g
    ensures ToDict(g).vendors[..|g.order|] == ToDict(g).vendors
    ensures ToDict(g).payments[..|g.order|] == ToDict(g).payments
  {
    assert g.order[..|g.order|] == g.order;
    RestrictAll(g.vendors, g.order);
    RestrictAll(NoEdges(g.payments), g.order);
    assert NoEdges(g.payments) == PaymentsUpTo(g, 0, 0).payments;
    assert PaymentsUpTo(g, |g.order|, 0).payments == g.payments;
  }

  /** Loading what was saved gives back the same graph if and only if no node
      carries extra attributes. */
  lemma LoadRestores(norm: Norm, g: Graph)
    requires Valid(norm, g)
    ensures Load(norm, ToDict(g)) == g <==> AllPlain(norm, g)
  {
    if AllPlain(norm, g) {
      LoadNodesRestores(norm, g, |g.order|);
      LoadPaymentsRestores(norm, g);
      WholeGraph(norm, g);
    } else {
      LoadNodesPlain(norm, ToDict(g).vendors);
      LoadPaymentsPlain(norm, LoadNodes(norm, ToDict(g).vendors), ToDict(g).payments);
    }
  }

  /** Operations without extra attributes. */
  predicate NoAttrs(ops: seq<Op>) {
    forall i :: 0 <= i < |ops| ==> ops[i].Vendor? ==> ops[i].attrs == map[]
  }

  lemma StepPlain(norm: Norm, g: Graph, op: Op)
    requires AllPlain(norm, g) && (op.Vendor? ==> op.attrs == map[])
    ensures AllPlain(norm, Step(norm, g, op))
  {
    if op.Vendor? {
      AddVendorPlain(norm, g, op.name, op.category);
    } else {
      AddVendorPlain(norm, g, op.vendor, op.category);
    }
  }

  lemma {:induction false} RunPlain(norm: Norm, ops: seq<Op>)
    requires NoAttrs(ops)
    ensures AllPlain(norm, Run(norm, ops))
  {
    if ops != [] {
      RunPlain(norm, ops[..|ops| - 1]);
      StepPlain(norm, Run(norm, ops[..|ops| - 1]), ops[|ops| - 1]);
    }
  }

  /** So every graph built without extra attributes survives saving and loading. */
  lemma SavedRunIsRestored(norm: Norm, ops: seq<Op>)
    requires Idempotent(norm) && NoAttrs(ops)
    ensures GoodDomains(Run(norm, ops)) && Load(norm, ToDict(Run(norm, ops))) == Run(norm, ops)
  {
    RunValid(norm, ops);
    RunPlain(norm, ops);
    LoadRestores(norm, Run(norm, ops));
  }

  // ---- Additions and payments, spelled out ----

  /** The category given, or else the one already known, or else "Other"; blank ones do not count. */
  predicate IsCategory(c: string, given: Option<string>, known: Option<string>) {
    if given.Some? && given.value != "" then c == given.value
    else if known.Some? && known.value != "" then c == known.value
    else c == "Other"
  }

  /** The text under a name in the attributes, or else the text given. */
  predicate IsField(x: string, attrs: Attrs, name: string, given: string) {
    x == if name in attrs then attrs[name] else given
  }

  /** An addition writes one node, under the normalized name: its own fields, overwritten by
      attributes of those names, and the other attributes; and keeps the edges. */
  lemma AdditionExactly(norm: Norm, g: Graph, name: string, category: Option<string>, attrs: Attrs)
    ensures var g', key := AddVendor(norm, g, name, category, attrs), norm(name);
            && g'.vendors.Keys == g.vendors.Keys + {key} && (forall k :: k in g.vendors && k != key ==> g'.vendors[k] == g.vendors[k])
            && g'.order == (if key in g.vendors then g.order else g.order + [key])
            && (forall k :: EdgesOf(g', k) == EdgesOf(g, k)) && g'.payments.Keys == g.payments.Keys + {key}
            && var n := g'.vendors[key];
               && IsCategory(n.category, category, CategoryOf(g, key))
               && IsField(n.id, attrs, "id", "vendor:" + key) && IsField(n.name, attrs, "label", name)
               && IsField(n.kind, attrs, "type", "vendor") && n.extra == attrs - {"id", "label", "type"}
  {
  }

  lemma EdgeInserted(edges: seq<Edge>, edge: Edge) returns (n: nat)
    requires Sorted(ByDate(), edges)
    ensures n <= |edges| && Sort(ByDate(), edges + [edge]) == edges[..n] + [edge] + edges[n..]
    ensures forall i :: 0 <= i < |edges| ==> (i < n <==> !Less(edge.date, edges[i].date))
  {
    SortSorted(ByDate(), edges);
    assert (edges + [edge])[..|edges|] == edges;
    n := InsertPosition(ByDate(), edges, edge);
  }

  /** The edge of a payment. */
  predicate IsEdgeOf(e: Edge, key: string, amount: int, date: string, category: Option<string>, known: Option<string>,
                     flag: Option<bool>) {
    && e.target == "vendor:" + key && e.amount == amount && e.date == date && e.flag == flag
    && IsCategory(e.category, category, known)
  }

  /** A payment adds one edge to the vendor's, after all of its date or an earlier one. */
  lemma PaymentExactly(norm: Norm, g: Graph, vendor: string, amount: int, date: string, category: Option<string>,
                       flag: Option<bool>) returns (n: nat, e: Edge)
    requires Sorted(ByDate(), EdgesOf(g, norm(vendor)))
    ensures var g', key := RecordPayment(norm, g, vendor, amount, date, category, flag), norm(vendor);
            var edges := EdgesOf(g, key);
            && n <= |edges| && EdgesOf(g', key) == edges[..n] + [e] + edges[n..]
            && (forall i :: 0 <= i < |edges| ==> (i < n <==> !Less(date, edges[i].date)))
            && IsEdgeOf(e, key, amount, date, category, CategoryOf(g', key), flag)
  {
    var g1, key := WithVendor(norm, g, vendor, category), norm(vendor);
    e := Edge(Target(key), amount, date, OrOther(category, CategoryOf(g1, key)), flag);
    assert EdgesOf(g1, key) == EdgesOf(g, key);
    n := EdgeInserted(EdgesOf(g, key), e);
  }

  /** It adds the vendor first if it is not known yet, and changes nothing else. */
  lemma PaymentKeeps(norm: Norm, g: Graph, vendor: string, amount: int, date: string, category: Option<string>,
                     flag: Option<bool>)
    ensures var g', key := RecordPayment(norm, g, vendor, amount, date, category, flag), norm(vendor);
            var g1 := if key in g.vendors then g else AddVendor(norm, g, vendor, category, map[]);
            && g'.vendors == g1.vendors && g'.order == g1.order
            && forall k :: k != key ==> EdgesOf(g', k) == EdgesOf(g, k)
  {
  }

  /** An invoice becomes a node record at the first sight of its vendor, and an edge record. */
  lemma IngestedExactly(before: seq<Invoice>, inv: Invoice)
    ensures IngestRecords([]) == []
    ensures var seen := exists i :: 0 <= i < |before| && before[i].vendor == inv.vendor;
            IngestRecords(before + [inv]) ==
            IngestRecords(before) + (if seen then [] else [NodeRecord(inv.vendor, inv.category)])
            + [EdgeRecord("vendor:" + inv.vendor, inv.amount, inv.date, inv.category)]
  {
    assert (before + [inv])[..|before|] == before;
  }

  // ---- Known vendors ----

  function NameIn(op: Op): string {
    if op.Vendor? then op.name else op.vendor
  }

  /** The run names a vendor that normalizes like `name`. */
  predicate Named(norm: Norm, ops: seq<Op>, name: string) {
    exists i :: 0 <= i < |ops| && norm(NameIn(ops[i])) == norm(name)
  }

  lemma NamedStep(norm: Norm, ops: seq<Op>, op: Op, name: string)
    ensures Named(norm, ops + [op], name) <==> Named(norm, ops, name) || norm(NameIn(op)) == norm(name)
  {
    if Named(norm, ops, name) {
      var i :| 0 <= i < |ops| && norm(NameIn(ops[i])) == norm(name);
      assert (ops + [op])[i] == ops[i];
    }
    assert (ops + [op])[|ops|] == op;
  }

  lemma KnownStep(norm: Norm, g: Graph, op: Op, name: string)
    ensures norm(name) in Step(norm, g, op).vendors <==> norm(name) in g.vendors || norm(NameIn(op)) == norm(name)
  {
  }

  /** After any run a name is known exactly if some operation, an addition or a payment,
      named a vendor that normalizes alike. */
  lemma {:induction false} KnownExactly(norm: Norm, ops: seq<Op>, name: string)
    ensures norm(name) in Run(norm, ops).vendors <==> Named(norm, ops, name)
  {
    if ops != [] {
      var before, op := ops[..|ops| - 1], ops[|ops| - 1];
      assert ops == before + [op];
      KnownExactly(norm, before, name);
      KnownStep(norm, Run(norm, before), op, name);
      NamedStep(norm, before, op, name);
    }
  }

  // ---- From invoices ----

  datatype Invoice = Invoice(vendor: string, amount: int, date: string, category: string)

  datatype GraphRecord =
    | NodeRecord(name: string, category: string)
    | EdgeRecord(target: string, amount: int, date: string, category: string)

  function VendorsIn(invoices: seq<Invoice>): set<string> {
    set i | 0 <= i < |invoices| :: invoices[i].vendor
  }

  /** `ingest_to_graph_records`: a node record at the first sight of a vendor name,
      and an edge record, whose target is not normalized, for every invoice. */
  function IngestRecords(invoices: seq<Invoice>): seq<GraphRecord> {
    if invoices == [] then []
    else
      var before, inv := invoices[..|invoices| - 1], invoices[|invoices| - 1];
      IngestRecords(before) + NodePart(inv, inv.vendor in VendorsIn(before)) + [EdgePart(inv)]
  }

  /** The node record of an invoice, unless its vendor has been seen. */
  function NodePart(inv: Invoice, seen: bool): seq<GraphRecord> {
    if seen then [] else [NodeRecord(inv.vendor, inv.category)]
  }

  function EdgePart(inv: Invoice): GraphRecord {
    EdgeRecord(Target(inv.vendor), inv.amount, inv.date, inv.category)
  }

  function LoadRecord(norm: Norm, g: Graph, r: GraphRecord): Graph {
    match r
    case NodeRecord(name, category) => AddVendor(norm, g, name, Some(category), map[])
    case EdgeRecord(target, amount, date, category) =>
      var key := if "vendor:" <= target then target[7..] else target;
      RecordPayment(norm, g, LoadName(g, key), amount, date, Some(category), None)
  }

  function LoadRecords(norm: Norm, g: Graph, rs: seq<GraphRecord>): Graph {
    if rs == [] then g else LoadRecord(norm, LoadRecords(norm, g, rs[..|rs| - 1]), rs[|rs| - 1])
  }

  /** `build_graph_from_invoices`. */
  function BuildGraph(norm: Norm, invoices: seq<Invoice>): Graph {
    LoadRecords(norm, EMPTY, IngestRecords(invoices))
  }

  /** The operations that ingesting amounts to: names and payments under the
      invoices' own names. */
  function IngestOps(invoices: seq<Invoice>): seq<Op> {
    if invoices == [] then []
    else
      var before, inv := invoices[..|invoices| - 1], invoices[|invoices| - 1];
      IngestOps(before) + VendorPart(inv, inv.vendor in VendorsIn(before)) + [PayPart(inv)]
  }

  function VendorPart(inv: Invoice, seen: bool): seq<Op> {
    if seen then [] else [Vendor(inv.vendor, Some(inv.category), map[])]
  }

  function PayPart(inv: Invoice): Op {
    Pay(inv.vendor, inv.amount, inv.date, Some(inv.category), None)
  }

  lemma LoadRecordsAppend(norm: Norm, g: Graph, rs: seq<GraphRecord>, r: GraphRecord)
    ensures LoadRecords(norm, g, rs + [r]) == LoadRecord(norm, LoadRecords(norm, g, rs), r)
  {
    assert (rs + [r])[..|rs|] == rs;
  }

  lemma RunAppend(norm: Norm, ops: seq<Op>, op: Op)
    ensures Run(norm, ops + [op]) == Step(norm, Run(norm, ops), op)
  {
    assert (ops + [op])[..|ops|] == ops;
  }

  /** Keys of nodes are normalized, labels normalize to their key. */
  predicate KeysNormal(norm: Norm, g: Graph) {
    && g.vendors.Keys == g.payments.Keys
    && forall k :: k in g.vendors ==> norm(k) == k && norm(g.vendors[k].name) == k
  }

  /** An edge whose target is a raw name lands under its normalized name, because
      the label it is recorded under normalizes like the name itself. */
  lemma EdgeLandsOnVendor(norm: Norm, g: Graph, v: string, amount: int, date: string, category: string)
    requires Idempotent(norm) && KeysNormal(norm, g) && norm(v) in g.vendors
    ensures LoadRecord(norm, g, EdgeRecord(Target(v), amount, date, category))
         == RecordPayment(norm, g, v, amount, date, Some(category), None)
  {
    assert Target(v)[7..] == v;
    assert norm(LoadName(g, v)) == norm(v);
  }

  lemma AddKeysNormal(norm: Norm, g: Graph, name: string, category: Option<string>)
    requires Idempotent(norm) && KeysNormal(norm, g)
    ensures var g' := AddVendor(norm, g, name, category, map[]);
            KeysNormal(norm, g') && norm(name) in g'.vendors && g.vendors.Keys <= g'.vendors.Keys
  {
    assert norm(norm(name)) == norm(name);
  }

  lemma PayKeysNormal(norm: Norm, g: Graph, vendor: string, amount: int, date: string, category: Option<string>, flag: Option<bool>)
    requires Idempotent(norm) && KeysNormal(norm, g)
    ensures var g' := RecordPayment(norm, g, vendor, amount, date, category, flag);
            KeysNormal(norm, g') && norm(vendor) in g'.vendors && g.vendors.Keys <= g'.vendors.Keys
  {
    AddKeysNormal(norm, g, vendor, category);
    var g1 := WithVendor(norm, g, vendor, category);
    assert KeysNormal(norm, g1) && norm(vendor) in g1.vendors;
  }

  lemma StepKeysNormal(norm: Norm, g: Graph, op: Op)
    requires Idempotent(norm) && KeysNormal(norm, g) && (op.Vendor? ==> op.attrs == map[])
    ensures KeysNormal(norm, Step(norm, g, op))
    ensures norm(if op.Vendor? then op.name else op.vendor) in Step(norm, g, op).vendors
    ensures g.vendors.Keys <= Step(norm, g, op).vendors.Keys
  {
    match op
    case Vendor(name, category, _) => AddKeysNormal(norm, g, name, category);
    case Pay(vendor, amount, date, category, flag) => PayKeysNormal(norm, g, vendor, amount, date, category, flag);
  }

  /** Records and operations that build the same graph, with normal keys, in which the
      vendors `vs` are known. */
  ghost predicate Alike(norm: Norm, rs: seq<GraphRecord>, ops: seq<Op>, vs: set<string>) {
    && LoadRecords(norm, EMPTY, rs) == Run(norm, ops) && KeysNormal(norm, Run(norm, ops))
    && forall v :: v in vs ==> norm(v) in Run(norm, ops).vendors
  }

  lemma NodeStep(norm: Norm, rs: seq<GraphRecord>, ops: seq<Op>, vs: set<string>, inv: Invoice)
    requires Idempotent(norm) && Alike(norm, rs, ops, vs)
    ensures Alike(norm, rs + NodePart(inv, inv.vendor in vs), ops + VendorPart(inv, inv.vendor in vs), vs + {inv.vendor})
  {
    if inv.vendor in vs {
      assert rs + [] == rs && ops + [] == ops && vs + {inv.vendor} == vs;
    } else {
      var op := Vendor(inv.vendor, Some(inv.category), map[]);
      LoadRecordsAppend(norm, EMPTY, rs, NodeRecord(inv.vendor, inv.category));
      RunAppend(norm, ops, op);
      StepKeysNormal(norm, Run(norm, ops), op);
    }
  }

  lemma EdgeStep(norm: Norm, rs: seq<GraphRecord>, ops: seq<Op>, vs: set<string>, inv: Invoice)
    requires Idempotent(norm) && Alike(norm, rs, ops, vs) && inv.vendor in vs
    ensures Alike(norm, rs + [EdgePart(inv)], ops + [PayPart(inv)], vs)
  {
    LoadRecordsAppend(norm, EMPTY, rs, EdgePart(inv));
    RunAppend(norm, ops, PayPart(inv));
    StepKeysNormal(norm, Run(norm, ops), PayPart(inv));
    EdgeLandsOnVendor(norm, Run(norm, ops), inv.vendor, inv.amount, inv.date, inv.category);
  }

  /** Ingesting one more invoice. */
  lemma IngestStep(norm: Norm, rs: seq<GraphRecord>, ops: seq<Op>, vs: set<string>, inv: Invoice)
    requires Idempotent(norm) && Alike(norm, rs, ops, vs)
    ensures Alike(norm, rs + NodePart(inv, inv.vendor in vs) + [EdgePart(inv)],
                  ops + VendorPart(inv, inv.vendor in vs) + [PayPart(inv)], vs + {inv.vendor})
  {
    NodeStep(norm, rs, ops, vs, inv);
    EdgeStep(norm, rs + NodePart(inv, inv.vendor in vs), ops + VendorPart(inv, inv.vendor in vs), vs + {inv.vendor}, inv);
  }

  /** What ingesting keeps: the graph is that of a run, its keys are normal, and it
      knows the invoices' vendors. */
  ghost predicate Ingested(norm: Norm, invoices: seq<Invoice>) {
    Alike(norm, IngestRecords(invoices), IngestOps(invoices), VendorsIn(invoices))
  }

  lemma IngestUnfold(invoices: seq<Invoice>)
    requires invoices != []
    ensures var before, inv := invoices[..|invoices| - 1], invoices[|invoices| - 1];
            var seen := inv.vendor in VendorsIn(before);
            && IngestRecords(invoices) == IngestRecords(before) + NodePart(inv, seen) + [EdgePart(inv)]
            && IngestOps(invoices) == IngestOps(before) + VendorPart(inv, seen) + [PayPart(inv)]
            && VendorsIn(invoices) == VendorsIn(before) + {inv.vendor}
  {
    VendorsInStep(invoices);
  }

  lemma IngestedStep(norm: Norm, invoices: seq<Invoice>)
    requires Idempotent(norm) && invoices != [] && Ingested(norm, invoices[..|invoices| - 1])
    ensures Ingested(norm, invoices)
  {
    var before, inv := invoices[..|invoices| - 1], invoices[|invoices| - 1];
    IngestStep(norm, IngestRecords(before), IngestOps(before), VendorsIn(before), inv);
    IngestUnfold(invoices);
  }

  lemma {:induction false} IngestedAll(norm: Norm, invoices: seq<Invoice>)
    requires Idempotent(norm)
    ensures Ingested(norm, invoices)
  {
    if invoices != [] {
      IngestedAll(norm, invoices[..|invoices| - 1]);
      IngestedStep(norm, invoices);
    }
  }

  lemma BuildIsRun(norm: Norm, invoices: seq<Invoice>)
    requires Idempotent(norm)
    ensures BuildGraph(norm, invoices) == Run(norm, IngestOps(invoices))
  {
    IngestedAll(norm, invoices);
  }

  lemma VendorsInStep(invoices: seq<Invoice>)
    requires invoices != []
    ensures VendorsIn(invoices) == VendorsIn(invoices[..|invoices| - 1]) + {invoices[|invoices| - 1].vendor}
  {
    var before, n := invoices[..|invoices| - 1], |invoices| - 1;
    forall v | v in VendorsIn(invoices) ensures v in VendorsIn(before) + {invoices[n].vendor} {
      var i :| 0 <= i < |invoices| && invoices[i].vendor == v;
      if i < n { assert before[i].vendor == v; }
    }
    forall v | v in VendorsIn(before) ensures v in VendorsIn(invoices) {
      var i :| 0 <= i < |before| && before[i].vendor == v;
      assert invoices[i].vendor == v;
    }
  }

  /** The amounts and dates of the invoices whose vendor normalizes to `key`. */
  function InvoicesOf(norm: Norm, invoices: seq<Invoice>, key: string): seq<(int, string)> {
    if invoices == [] then []
    else
      var inv := invoices[|invoices| - 1];
      InvoicesOf(norm, invoices[..|invoices| - 1], key)
      + if norm(inv.vendor) == key then [(inv.amount, inv.date)] else []
  }

  lemma PaidToAppend(norm: Norm, ops: seq<Op>, op: Op, key: string)
    ensures PaidTo(norm, ops + [op], key) == PaidTo(norm, ops, key) + Paid(norm, op, key)
  {
    assert (ops + [op])[..|ops|] == ops;
  }

  lemma PaidParts(norm: Norm, ops: seq<Op>, inv: Invoice, seen: bool, key: string)
    ensures PaidTo(norm, ops + VendorPart(inv, seen) + [PayPart(inv)], key)
         == PaidTo(norm, ops, key) + Paid(norm, PayPart(inv), key)
  {
    if seen {
      assert ops + [] == ops;
    } else {
      PaidToAppend(norm, ops, Vendor(inv.vendor, Some(inv.category), map[]), key);
      assert PaidTo(norm, ops, key) + [] == PaidTo(norm, ops, key);
    }
    PaidToAppend(norm, ops + VendorPart(inv, seen), PayPart(inv), key);
  }

  lemma {:induction false} IngestedPayments(norm: Norm, invoices: seq<Invoice>, key: string)
    ensures PaidTo(norm, IngestOps(invoices), key) == InvoicesOf(norm, invoices, key)
  {
    if invoices != [] {
      var before, inv := invoices[..|invoices| - 1], invoices[|invoices| - 1];
      IngestedPayments(norm, before, key);
      IngestUnfold(invoices);
      PaidParts(norm, IngestOps(before), inv, inv.vendor in VendorsIn(before), key);
    }
  }

  /** Every ingested invoice becomes one edge under its normalized vendor: the
      history of a vendor is the stable sort by date of exactly its invoices. */
  lemma InvoicesBecomeHistory(norm: Norm, invoices: seq<Invoice>, name: string)
    requires Idempotent(norm)
    ensures var sorted := Sort(Dates(), InvoicesOf(norm, invoices, norm(name)));
            var history := VendorHistory(norm, BuildGraph(norm, invoices), name);
            |history| == |sorted| && forall i :: 0 <= i < |sorted| ==> history[i] == sorted[i].0
  {
    BuildIsRun(norm, invoices);
    IngestedPayments(norm, invoices, norm(name));
    HistoryRefinesPayments(norm, IngestOps(invoices), name);
  }
}
