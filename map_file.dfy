/** The map file the mapper writes and the dashboard reads back: each
    skeleton node becomes the dictionary the script returned for it, and
    each scanned course an entry `{title, details: {hierarchy}}`. */
module MapFile {
  import opened JsonValues
  import Skeleton
  import Stats

  /** The dictionary `build` returns for a node, with its keys in the order
      the script's object literal gives them. */
  function NodeJson(n: Skeleton.Node): (r: Json)
    ensures r.JObj? && |r.fields| == 5
  {
    JObj([Field("id", n.id), Field("title", n.title), Field("unitType", n.unitType),
          Field("children", JArr(NodesJson(n.children))), Field("metadata", n.metadata)])
  }

  function NodesJson(ns: seq<Skeleton.Node>): (r: seq<Json>)
    ensures |r| == |ns|
  {
    if ns == [] then [] else [NodeJson(ns[0])] + NodesJson(ns[1..])
  }

  /** The entry the mapper appends for a scanned course. */
  function CourseEntry(title: Json, hierarchy: seq<Skeleton.Node>): Json
  {
    JObj([Field("title", title), Field("details", JObj([Field("hierarchy", JArr(NodesJson(hierarchy)))]))])
  }

  /** The node dictionary answers `get` with the node's own parts. */
  lemma NodeFields(n: Skeleton.Node)
    ensures Lookup(NodeJson(n).fields, "metadata") == Some(n.metadata)
    ensures Lookup(NodeJson(n).fields, "children") == Some(JArr(NodesJson(n.children)))
    ensures Lookup(NodeJson(n).fields, "unitType") == Some(n.unitType)
  {
    var fs := NodeJson(n).fields;
    assert "metadata"[0] != "children"[0] && "metadata"[0] != "unitType"[0] && "children"[0] != "unitType"[0];
    assert Lookup(fs, "unitType") == Lookup(fs[..4], "unitType");
    assert fs[..4][..3] == fs[..3];
    assert Lookup(fs[..4], "unitType") == Lookup(fs[..3], "unitType");
  }

  /** What a node contributes by its type alone: one set or one module. */
  function OwnCensus(n: Skeleton.Node): Stats.Tally
  {
    if PyEq(n.unitType, JStr("set")) then Stats.Tally(1, 0, 0, 0) else Stats.Tally(0, 1, 0, 0)
  }

  /** The sets and modules of a skeleton, counted on the skeleton itself;
      every node is one of the two, and nothing else is counted. */
  function Census(n: Skeleton.Node): (t: Stats.Tally)
    ensures t.sets + t.modules == |Skeleton.Ids(n)|
    ensures t.videos == 0 && t.attachments == 0
  {
    Stats.Plus(OwnCensus(n), CensusList(n.children))
  }

  function CensusList(ns: seq<Skeleton.Node>): (t: Stats.Tally)
    ensures t.sets + t.modules == |Skeleton.IdsList(ns)|
    ensures t.videos == 0 && t.attachments == 0
  {
    if ns == [] then Stats.Zero else Stats.Plus(Census(ns[0]), CensusList(ns[1..]))
  }

  /** A node of a skeleton that has not been scanned yet is counted by the
      dashboard without raising, as the census of its subtree. */
  lemma {:induction false} FreshNodeTally(n: Skeleton.Node, parse: Stats.Parser)
    requires Skeleton.AllEmpty(n)
    ensures Stats.TallyNode(NodeJson(n), parse) == Ok(Census(n))
  {
    var node := NodeJson(n);
    NodeFields(n);
    assert Stats.NodeMeta(node) == Ok([]);
    assert Stats.Attachments([], parse) == Ok([]);
    assert Stats.OwnTally(node, parse) == Ok(OwnCensus(n));
    assert Stats.Children(node) == Ok(NodesJson(n.children));
    assert Skeleton.AllEmptyList(n.children);
    FreshNodesTally(n.children, parse);
  }

  lemma {:induction false} FreshNodesTally(ns: seq<Skeleton.Node>, parse: Stats.Parser)
    requires Skeleton.AllEmptyList(ns)
    ensures Stats.TallyNodes(NodesJson(ns), parse) == Ok(CensusList(ns))
  {
    if ns != [] {
      FreshNodeTally(ns[0], parse);
      assert Skeleton.AllEmptyList(ns[1..]) by {
        forall i | 0 <= i < |ns[1..]| ensures Skeleton.AllEmpty(ns[1..][i]) {
          assert ns[1..][i] == ns[i + 1];
        }
      }
      FreshNodesTally(ns[1..], parse);
      assert NodesJson(ns)[0] == NodeJson(ns[0]);
      assert NodesJson(ns)[1..] == NodesJson(ns[1..]);
    }
  }

  /** A course entry written before any module is scanned is counted as
      the census of its hierarchy. */
  lemma FreshCourseTally(title: Json, hierarchy: seq<Skeleton.Node>, parse: Stats.Parser)
    requires Skeleton.AllEmptyList(hierarchy)
    ensures Stats.TallyCourse(CourseEntry(title, hierarchy), parse) == Ok(CensusList(hierarchy))
  {
    var entry := CourseEntry(title, hierarchy);
    assert "details"[0] != "title"[0];
    assert Stats.CourseNodes(entry) == Ok(NodesJson(hierarchy));
    FreshNodesTally(hierarchy, parse);
  }
}
