/** The course skeleton the mapper builds in the browser from a course
    page's structured state: every node keeps its id, title, type and
    children, and starts with empty metadata. */
module Skeleton {
  import opened JsonValues

  /** One node of the skeleton, as the script returns it to Python. An
      `undefined` property arrives as `None`, modelled as `JNull`. */
  datatype Node = Node(id: Json, title: Json, unitType: Json, children: seq<Node>, metadata: Json)

  /** A property value, with `undefined` arriving in Python as `None`. */
  function Arrived(v: Option<Json>): Json
  {
    if v.Some? then v.value else JNull
  }

  /** `a || b` over possibly undefined operands. */
  function JsOr(a: Option<Json>, b: Option<Json>): (r: Option<Json>)
    ensures JsTruthyOpt(r) <==> JsTruthyOpt(a) || JsTruthyOpt(b)
  {
    if JsTruthyOpt(a) then a else b
  }

  /** `v.k` on a value that is not `null`. */
  function Prop(v: Json, k: string): (r: Option<Json>)
    requires !v.JNull?
    ensures r.Some? ==> v.JObj?
  {
    JsGet(v, k).value
  }

  lemma PropSmaller(v: Json, k: string)
    requires !v.JNull? && Prop(v, k).Some?
    ensures Size(Prop(v, k).value) < Size(v)
  {
    JsGetOptSmaller(Some(v), k);
  }

  /** `node.course || node`. */
  function Record(node: Json): (c: Json)
    requires !node.JNull?
    ensures !c.JNull?
  {
    if JsTruthyOpt(Prop(node, "course")) then Prop(node, "course").value else node
  }

  /** `node.children || c.children || []`: the first truthy candidate, so an
      empty `node.children` array still wins over `c.children`. */
  function ChildList(node: Json): Json
    requires !node.JNull?
  {
    Arrived(JsOr(JsOr(Prop(node, "children"), Prop(Record(node), "children")), Some(EmptyArr)))
  }

  /** The children followed weigh less than the node. */
  lemma ChildListSmaller(node: Json)
    requires !node.JNull? && ChildList(node).JArr? && ChildList(node).items != []
    ensures SizeSeq(ChildList(node).items) < Size(node)
  {
    if JsTruthyOpt(Prop(node, "children")) {
      PropSmaller(node, "children");
    } else if JsTruthyOpt(Prop(Record(node), "children")) {
      PropSmaller(Record(node), "children");
      if JsTruthyOpt(Prop(node, "course")) { PropSmaller(node, "course"); }
    }
  }

  /** `build(node)`. Reading a property of `null` throws, and so does
      calling `map` on children that are not an array. */
  function Build(node: Json): (r: Result<Node>)
    decreases Size(node), 0, 0
    ensures r.Ok? ==> !node.JNull? && ChildList(node).JArr?
    ensures r.Ok? ==> |r.value.children| == |ChildList(node).items|
    ensures r.Err? ==> r.error == TypeError
  {
    if node.JNull? then Err(TypeError)
    else
      var c := Record(node);
      var kids := ChildList(node);
      if !kids.JArr? then Err(TypeError)
      else
        var built :- (if kids.items == [] then Ok([]) else ChildListSmaller(node); BuildAll(kids.items));
        Ok(Node(Arrived(Prop(c, "id")),
                Arrived(JsOr(JsGetOpt(Prop(c, "metadata"), "title"), Prop(c, "name"))),
                Arrived(Prop(c, "unitType")),
                built,
                EmptyObj))
  }

  /** `nodes.map(build)`: the first node that throws ends the map. */
  function BuildAll(nodes: seq<Json>): (r: Result<seq<Node>>)
    decreases SizeSeq(nodes), 1, |nodes|
    ensures r.Ok? ==> |r.value| == |nodes|
    ensures r.Err? ==> r.error == TypeError
  {
    if nodes == [] then Ok([])
    else
      var first :- Build(nodes[0]);
      var rest :- BuildAll(nodes[1..]);
      Ok([first] + rest)
  }

  /** `props.course?.children` on a `props` that is not `null`: `None` when
      the course is missing or `null`, or when its `children` are. */
  function CourseChildren(props: Json): (r: Option<Json>)
    requires !props.JNull?
    ensures r.Some? ==> !r.value.JNull?
  {
    var course := Prop(props, "course");
    if course.None? || course.value.JNull? then None
    else
      var children := Prop(course.value, "children");
      if children.Some? && children.value.JNull? then None else children
  }

  /** The script's result: `props.course?.children?.map(build) || []`.
      Reading `course` of an undefined or `null` `props` throws, and so
      does `map` on children that are not an array or a child whose build
      throws; a missing course or missing children give the empty list.
      Otherwise every child yields one node, with the ids the script reads
      in depth-first order. */
  function Hierarchy(props: Option<Json>): (r: Result<seq<Node>>)
    ensures r.Err? <==>
              props.None? || props.value.JNull?
              || (CourseChildren(props.value).Some?
                  && (!CourseChildren(props.value).value.JArr? || BuildAll(CourseChildren(props.value).value.items).Err?))
    ensures r.Err? ==> r.error == TypeError
    ensures r.Ok? && CourseChildren(props.value).None? ==> r.value == []
    ensures r.Ok? && CourseChildren(props.value).Some? ==>
              |r.value| == |CourseChildren(props.value).value.items|
              && IdsList(r.value) == RawIdsList(CourseChildren(props.value).value.items)
  {
    if props.None? then Err(TypeError)
    else
      var course :- JsGet(props.value, "course");
      if course.None? || course.value.JNull? then Ok([])
      else
        var children := Prop(course.value, "children");
        if children.None? || children.value.JNull? then Ok([])
        else if children.value.JArr? then
          var built := BuildAll(children.value.items);
          if built.Ok? then BuildAllKeepsNodes(children.value.items); built else built
        else Err(TypeError)
  }

  // ---------------------------------------------------------------------
  // Properties

  /** Every node of a skeleton carries `{}` as its metadata. */
  predicate AllEmpty(n: Node)
  {
    n.metadata == EmptyObj && forall i :: 0 <= i < |n.children| ==> AllEmpty(n.children[i])
  }

  predicate AllEmptyList(ns: seq<Node>)
  {
    forall i :: 0 <= i < |ns| ==> AllEmpty(ns[i])
  }

  /** Ids of a skeleton, depth first. */
  function Ids(n: Node): seq<Json>
  {
    [n.id] + IdsList(n.children)
  }

  function IdsList(ns: seq<Node>): seq<Json>
  {
    if ns == [] then [] else Ids(ns[0]) + IdsList(ns[1..])
  }

  /** The ids the script reads, depth first along the children it follows:
      `c.id` of every node reached. */
  function RawIds(node: Json): seq<Json>
    requires !node.JNull?
    decreases Size(node), 0, 0
  {
    var kids := ChildList(node);
    [Arrived(Prop(Record(node), "id"))]
    + (if kids.JArr? && kids.items != [] then ChildListSmaller(node); RawIdsList(kids.items) else [])
  }

  function RawIdsList(nodes: seq<Json>): seq<Json>
    decreases SizeSeq(nodes), 1, |nodes|
  {
    if nodes == [] || nodes[0].JNull? then [] else RawIds(nodes[0]) + RawIdsList(nodes[1..])
  }

  /** Building keeps every node it reaches, with its id, in depth-first
      order, and starts each of them with empty metadata. */
  lemma {:induction false} BuildKeepsNodes(node: Json)
    requires Build(node).Ok?
    ensures AllEmpty(Build(node).value)
    ensures Ids(Build(node).value) == RawIds(node)
    decreases Size(node), 0, 0
  {
    var kids := ChildList(node).items;
    if kids != [] {
      ChildListSmaller(node);
      BuildAllKeepsNodes(kids);
    }
  }

  lemma {:induction false} BuildAllKeepsNodes(nodes: seq<Json>)
    requires BuildAll(nodes).Ok?
    ensures AllEmptyList(BuildAll(nodes).value)
    ensures IdsList(BuildAll(nodes).value) == RawIdsList(nodes)
    decreases SizeSeq(nodes), 1, |nodes|
  {
    if nodes != [] {
      BuildKeepsNodes(nodes[0]);
      BuildAllKeepsNodes(nodes[1..]);
      var built := BuildAll(nodes).value;
      assert built[0] == Build(nodes[0]).value && built[1..] == BuildAll(nodes[1..]).value;
      assert forall i :: 1 <= i < |built| ==> built[i] == built[1..][i - 1];
    }
  }

  /** A node's title is `metadata.title` when that is truthy and `name`
      otherwise; its type and id are those of the course record when the
      node wraps one. */
  lemma BuildTitleRule(node: Json)
    requires Build(node).Ok?
    ensures var c := Record(node);
            var metaTitle := JsGetOpt(Prop(c, "metadata"), "title");
            Build(node).value.title == (if JsTruthyOpt(metaTitle) then metaTitle.value else Arrived(Prop(c, "name")))
    ensures Build(node).value.unitType == Arrived(Prop(Record(node), "unitType"))
    ensures JsTruthyOpt(Prop(node, "course")) ==> Build(node).value.id == Arrived(Prop(Prop(node, "course").value, "id"))
  {
  }

  /** Children come from `node.children` when it is truthy (an empty array
      included), else from the record's `children`, else there are none; a
      truthy value that is not an array throws. */
  lemma BuildChildrenRule(node: Json)
    requires !node.JNull?
    ensures JsTruthyOpt(Prop(node, "children")) ==> ChildList(node) == Prop(node, "children").value
    ensures !JsTruthyOpt(Prop(node, "children")) && JsTruthyOpt(Prop(Record(node), "children")) ==>
              ChildList(node) == Prop(Record(node), "children").value
    ensures !JsTruthyOpt(Prop(node, "children")) && !JsTruthyOpt(Prop(Record(node), "children")) ==>
              Build(node).Ok? && Build(node).value.children == []
    ensures !ChildList(node).JArr? ==> Build(node) == Err(TypeError)
  {
  }

  /** The script's result, when it returns, is a skeleton that has not
      been scanned: every node carries `{}` as its metadata. */
  lemma HierarchyStartsEmpty(props: Option<Json>)
    requires Hierarchy(props).Ok?
    ensures AllEmptyList(Hierarchy(props).value)
  {
    var course := JsGet(props.value, "course").value;
    if course.Some? && !course.value.JNull? {
      var children := Prop(course.value, "children");
      if children.Some? && children.value.JArr? {
        BuildAllKeepsNodes(children.value.items);
      }
    }
  }
}
