/** The mapper's deep scan: a walk over the skeleton that, in place, replaces
    the metadata of every module it reaches with what the module page's
    script returned, and descends into every node that is not a module. */
module DeepScan {
  import opened JsonValues
  import Extraction

  /** The page the mapper obtains when it visits a module, keyed by the
      module id; `None` when the visit or the script raised. */
  type Visit = Json -> Option<Extraction.ModulePage>

  /** A skeleton node as the scan holds it: everything is fixed except the
      metadata, which the scan overwrites. */
  class MapNode {
    const id: Json
    const title: Json
    const unitType: Json
    const children: seq<MapNode>
    var metadata: Json
    /** Every node strictly below this one. */
    ghost const below: set<MapNode>
    ghost const height: nat

    /** The nodes below are exactly the children's subtrees; each child is
        strictly lower and the children's subtrees are apart. */
    ghost predicate Valid()
      decreases height
    {
      below == FootprintList(children)
      && (forall i :: 0 <= i < |children| ==> children[i].height < height && children[i].Valid())
      && (forall i, j :: 0 <= i < j < |children| ==> Footprint(children[i]) !! Footprint(children[j]))
    }

    constructor (id: Json, title: Json, unitType: Json, children: seq<MapNode>, metadata: Json)
      requires forall i :: 0 <= i < |children| ==> children[i].Valid()
      requires forall i, j :: 0 <= i < j < |children| ==> Footprint(children[i]) !! Footprint(children[j])
      ensures Valid()
      ensures this.id == id && this.title == title && this.unitType == unitType
      ensures this.children == children && this.metadata == metadata
    {
      this.id := id;
      this.title := title;
      this.unitType := unitType;
      this.children := children;
      this.metadata := metadata;
      below := FootprintList(children);
      height := 1 + MaxHeight(children);
      new;
      forall i | 0 <= i < |children| ensures children[i].height < height {
        MaxHeightBound(children, i);
      }
    }
  }

  ghost function Footprint(n: MapNode): set<MapNode>
  {
    {n} + n.below
  }

  ghost function FootprintList(ns: seq<MapNode>): set<MapNode>
  {
    if ns == [] then {} else Footprint(ns[0]) + FootprintList(ns[1..])
  }

  ghost function MaxHeight(ns: seq<MapNode>): nat
  {
    if ns == [] then 0 else var h := MaxHeight(ns[1..]); if ns[0].height > h then ns[0].height else h
  }

  lemma {:induction false} MaxHeightBound(ns: seq<MapNode>, i: nat)
    requires i < |ns|
    ensures ns[i].height <= MaxHeight(ns)
  {
    if i > 0 { MaxHeightBound(ns[1..], i - 1); }
  }

  /** Each tree of a forest lies inside the forest's footprint. */
  lemma {:induction false} InFootprintList(ns: seq<MapNode>, k: nat)
    requires k < |ns|
    ensures Footprint(ns[k]) <= FootprintList(ns)
  {
    if k > 0 {
      InFootprintList(ns[1..], k - 1);
    }
  }

  /** Each node of a forest's footprint lies in one of its trees. */
  lemma {:induction false} FootprintListOwner(ns: seq<MapNode>, o: MapNode) returns (k: nat)
    requires o in FootprintList(ns)
    ensures k < |ns| && o in Footprint(ns[k])
  {
    if o in Footprint(ns[0]) {
      k := 0;
    } else {
      var j := FootprintListOwner(ns[1..], o);
      k := j + 1;
    }
  }

  /** A valid tree has its nodes below it valid and strictly lower, each
      with its own subtree inside the tree's; in particular a node is never
      below itself. */
  lemma {:induction false} BelowIsLower(n: MapNode)
    requires n.Valid()
    ensures forall o :: o in n.below ==> o.Valid() && o.height < n.height && Footprint(o) <= n.below
    ensures n !in n.below
    decreases n.height
  {
    forall o | o in n.below ensures o.Valid() && o.height < n.height && Footprint(o) <= n.below {
      var k := FootprintListOwner(n.children, o);
      BelowIsLower(n.children[k]);
      InFootprintList(n.children, k);
    }
  }

  /** A forest the scan can walk: valid subtrees, lower than `h`, pairwise
      apart. */
  ghost predicate Forest(ns: seq<MapNode>, h: nat)
  {
    (forall i :: 0 <= i < |ns| ==> ns[i].Valid() && ns[i].height < h)
    && (forall i, j :: 0 <= i < j < |ns| ==> Footprint(ns[i]) !! Footprint(ns[j]))
  }

  /** `node['unitType'] == 'module'`. */
  predicate IsModule(n: MapNode)
  {
    PyEq(n.unitType, JStr("module"))
  }

  /** The modules the scan reaches below and including `n`: a module
      itself, or else whatever its children reach. */
  ghost function Reached(n: MapNode): set<MapNode>
    requires n.Valid()
    decreases n.height, 1
  {
    if IsModule(n) then {n} else ReachedList(n.children, n.height)
  }

  ghost function ReachedList(ns: seq<MapNode>, h: nat): set<MapNode>
    requires Forest(ns, h)
    decreases h, 0, |ns|
  {
    if ns == [] then {} else Reached(ns[0]) + ReachedList(ns[1..], h)
  }

  /** The metadata a reached module ends with: the script's object when the
      visit and the script succeed, otherwise what it had. */
  function Scanned(id: Json, current: Json, visit: Visit): Json
  {
    match visit(id)
    case None => current
    case Some(page) =>
      match Extraction.Extract(page, id)
      case Ok(meta) => JObj(meta)
      case Err(_) => current
  }

  /** Between the earlier state and now, the metadata of each node of `ns`
      became its scanned metadata when it is in `reached`, and stayed as it
      was otherwise. */
  twostate predicate ScannedWithin(ns: set<MapNode>, reached: set<MapNode>, visit: Visit)
    reads ns
  {
    forall o :: o in ns ==>
      o.metadata == if o in reached then Scanned(o.id, old(o.metadata), visit) else old(o.metadata)
  }

  /** `deep_scan_list(nodes)`: every module reached gets its scanned
      metadata and every other node keeps the metadata it had. */
  method DeepScanList(nodes: seq<MapNode>, visit: Visit, ghost h: nat)
    requires Forest(nodes, h)
    modifies FootprintList(nodes)
    ensures forall k :: 0 <= k < |nodes| ==> ScannedWithin(Footprint(nodes[k]), ReachedList(nodes, h), visit)
    decreases h, 0
  {
    var i := 0;
    while i < |nodes|
      invariant 0 <= i <= |nodes|
      invariant forall k :: 0 <= k < i ==> ScannedWithin(Footprint(nodes[k]), Reached(nodes[k]), visit)
      invariant forall k :: i <= k < |nodes| ==> unchanged(Footprint(nodes[k]))
    {
      InFootprintList(nodes, i);
      ScanNode(nodes[i], visit);
      i := i + 1;
    }
    forall k, o | 0 <= k < |nodes| && o in Footprint(nodes[k])
      ensures o.metadata == if o in ReachedList(nodes, h) then Scanned(o.id, old(o.metadata), visit) else old(o.metadata)
    {
      ReachedListAt(nodes, h, k, o);
    }
  }

  /** One pass of the loop: a module is visited and its metadata replaced
      on success; any other node has its children scanned. */
  method ScanNode(node: MapNode, visit: Visit)
    requires node.Valid()
    modifies Footprint(node)
    ensures ScannedWithin(Footprint(node), Reached(node), visit)
    decreases node.height, 1
  {
    BelowIsLower(node);
    if IsModule(node) {
      VisitModule(node, visit);
    } else {
      DeepScanList(node.children, visit, node.height);
      ReachedListInside(node.children, node.height);
      forall o | o in node.below
        ensures o.metadata == if o in Reached(node) then Scanned(o.id, old(o.metadata), visit) else old(o.metadata)
      {
        var k := FootprintListOwner(node.children, o);
      }
    }
  }

  /** The module branch: visit the page and, when the script returns,
      store what it returned as the module's metadata. */
  method VisitModule(node: MapNode, visit: Visit)
    modifies node
    ensures node.metadata == Scanned(node.id, old(node.metadata), visit)
  {
    var page := visit(node.id);
    if page.Some? {
      var extraction := Extraction.Evaluate(page.value, node.id);
      if extraction.Ok? {
        node.metadata := JObj(extraction.value);
      }
    }
  }

  /** What a tree reaches lies inside it. */
  lemma ReachedInside(n: MapNode)
    requires n.Valid()
    ensures Reached(n) <= Footprint(n)
    decreases n.height, 1
  {
    if !IsModule(n) {
      ReachedListInside(n.children, n.height);
    }
  }

  lemma {:induction false} ReachedListInside(ns: seq<MapNode>, h: nat)
    requires Forest(ns, h)
    ensures ReachedList(ns, h) <= FootprintList(ns)
    decreases h, 0, |ns|
  {
    if ns != [] {
      ReachedInside(ns[0]);
      ReachedListInside(ns[1..], h);
    }
  }

  /** Each module a forest reaches is reached by one of its trees. */
  lemma {:induction false} ReachedListOwner(ns: seq<MapNode>, h: nat, o: MapNode) returns (k: nat)
    requires Forest(ns, h)
    requires o in ReachedList(ns, h)
    ensures k < |ns| && o in Reached(ns[k])
    decreases |ns|
  {
    if o in Reached(ns[0]) {
      k := 0;
    } else {
      var j := ReachedListOwner(ns[1..], h, o);
      k := j + 1;
    }
  }

  /** Within one tree's footprint, the forest reaches exactly what that
      tree reaches. */
  lemma {:induction false} ReachedListAt(ns: seq<MapNode>, h: nat, k: nat, o: MapNode)
    requires Forest(ns, h)
    requires k < |ns| && o in Footprint(ns[k])
    ensures o in ReachedList(ns, h) <==> o in Reached(ns[k])
    decreases |ns|
  {
    if o in ReachedList(ns, h) {
      var j := ReachedListOwner(ns, h, o);
      ReachedInside(ns[j]);
    } else {
      ReachedInListAt(ns, h, k);
    }
  }

  lemma {:induction false} ReachedInListAt(ns: seq<MapNode>, h: nat, k: nat)
    requires Forest(ns, h)
    requires k < |ns|
    ensures Reached(ns[k]) <= ReachedList(ns, h)
    decreases |ns|
  {
    if k > 0 {
      ReachedInListAt(ns[1..], h, k - 1);
    }
  }

  /** The scan only ever replaces the metadata of modules. */
  lemma {:induction false} ReachedAreModules(n: MapNode)
    requires n.Valid()
    ensures forall o :: o in Reached(n) ==> IsModule(o)
    decreases n.height
  {
    if !IsModule(n) {
      forall o | o in Reached(n) ensures IsModule(o) {
        var k := ReachedListOwner(n.children, n.height, o);
        ReachedAreModules(n.children[k]);
      }
    }
  }

  /** The scan does not descend into a module: nothing below a reached
      module is reached. */
  lemma {:induction false} ReachedStopsAtModules(n: MapNode)
    requires n.Valid()
    ensures forall o, p :: o in Reached(n) && p in o.below ==> p !in Reached(n)
    decreases n.height
  {
    BelowIsLower(n);
    if !IsModule(n) {
      forall o, p | o in Reached(n) && p in o.below ensures p !in Reached(n) {
        var k := ReachedListOwner(n.children, n.height, o);
        var c := n.children[k];
        ReachedInside(c);
        BelowIsLower(c);
        assert p in Footprint(c);
        ReachedListAt(n.children, n.height, k, p);
        ReachedStopsAtModules(c);
      }
    }
  }
}
