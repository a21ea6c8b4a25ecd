/** What the statistics endpoint promises, proved about the functions that
    specify it: every node is counted once, videos and attachments follow the
    per-node rules, and the attachment merge keeps the seed and deduplicates
    the scraped hits. */
module StatsFacts {
  import opened JsonValues
  import opened Stats
  import Settings

  // ---------------------------------------------------------------------
  // An independent enumeration of the nodes

  /** A node followed by every node below it, depth first. */
  function Subtree(node: Json): seq<Json>
    decreases Size(node), 0, 0
  {
    if Children(node).Ok? then
      ChildrenSmaller(node);
      [node] + Preorder(Children(node).value)
    else [node]
  }

  /** Every node of a forest, depth first, in sibling order. */
  function Preorder(nodes: seq<Json>): seq<Json>
    decreases SizeSeq(nodes), 1, |nodes|
  {
    if nodes == [] then [] else Subtree(nodes[0]) + Preorder(nodes[1..])
  }

  /** How many of `ns` are dictionaries whose `unitType` is `"set"`. */
  function SetNodes(ns: seq<Json>): nat
  {
    if ns == [] then 0
    else (if ns[0].JObj? && IsSetNode(ns[0].fields) then 1 else 0) + SetNodes(ns[1..])
  }

  /** How many of `ns` have metadata with a truthy video length or link. */
  function VideoNodes(ns: seq<Json>): nat
  {
    if ns == [] then 0
    else (if NodeMeta(ns[0]).Ok? && HasVideo(NodeMeta(ns[0]).value) then 1 else 0) + VideoNodes(ns[1..])
  }

  /** How many entries the merged attachment lists of `ns` hold, over the
      nodes whose metadata and attachment list can be read. */
  function AttachmentNodes(ns: seq<Json>, parse: Parser): nat
  {
    if ns == [] then 0
    else
      (if NodeMeta(ns[0]).Ok? && Attachments(NodeMeta(ns[0]).value, parse).Ok?
       then |Attachments(NodeMeta(ns[0]).value, parse).value| else 0)
      + AttachmentNodes(ns[1..], parse)
  }

  lemma {:induction false} CountsAppend(xs: seq<Json>, ys: seq<Json>, parse: Parser)
    ensures SetNodes(xs + ys) == SetNodes(xs) + SetNodes(ys)
    ensures VideoNodes(xs + ys) == VideoNodes(xs) + VideoNodes(ys)
    ensures AttachmentNodes(xs + ys, parse) == AttachmentNodes(xs, parse) + AttachmentNodes(ys, parse)
  {
    if xs == [] {
      assert xs + ys == ys;
    } else {
      assert (xs + ys)[0] == xs[0] && (xs + ys)[1..] == xs[1..] + ys;
      CountsAppend(xs[1..], ys, parse);
    }
  }

  // ---------------------------------------------------------------------
  // One node

  /** A node counts once, as a set exactly when its `unitType` is `"set"`
      and as a module otherwise; it adds a video exactly when its metadata
      has a truthy `videoLenMs` or `videoLink`, whatever its type; and it adds
      the size of its merged attachment list. */
  lemma OwnTallyRules(node: Json, parse: Parser)
    requires OwnTally(node, parse).Ok?
    ensures node.JObj? && NodeMeta(node).Ok? && Attachments(NodeMeta(node).value, parse).Ok?
    ensures OwnTally(node, parse).value.sets + OwnTally(node, parse).value.modules == 1
    ensures OwnTally(node, parse).value.sets == 1 <==> IsSetNode(node.fields)
    ensures OwnTally(node, parse).value.videos == 1 <==> HasVideo(NodeMeta(node).value)
    ensures OwnTally(node, parse).value.videos <= 1
    ensures OwnTally(node, parse).value.attachments == |Attachments(NodeMeta(node).value, parse).value|
  {
  }

  /** A node that is not a dictionary raises at its first `get`, and the
      walk of a forest holding it raises with it. */
  lemma NonDictNodeRaises(node: Json, parse: Parser)
    requires !node.JObj?
    ensures OwnTally(node, parse) == Err(AttributeError)
    ensures TallyNodes([node], parse) == Err(AttributeError)
  {
  }

  // ---------------------------------------------------------------------
  // The whole walk

  /** On success the walk counted every node of the forest exactly once:
      sets and modules together number the nodes, sets are the set nodes,
      videos the nodes with a video (so never more than the nodes), and
      attachments the entries of every node's merged list. */
  lemma {:induction false} TallyNodesCountsEveryNode(nodes: seq<Json>, parse: Parser)
    requires TallyNodes(nodes, parse).Ok?
    ensures TallyNodes(nodes, parse).value.sets + TallyNodes(nodes, parse).value.modules == |Preorder(nodes)|
    ensures TallyNodes(nodes, parse).value.sets == SetNodes(Preorder(nodes))
    ensures TallyNodes(nodes, parse).value.videos == VideoNodes(Preorder(nodes))
    ensures TallyNodes(nodes, parse).value.videos <= |Preorder(nodes)|
    ensures TallyNodes(nodes, parse).value.attachments == AttachmentNodes(Preorder(nodes), parse)
    decreases SizeSeq(nodes), 1, |nodes|
  {
    VideoNodesBound(Preorder(nodes));
    if nodes != [] {
      TallyNodeCountsSubtree(nodes[0], parse);
      TallyNodesCountsEveryNode(nodes[1..], parse);
      CountsAppend(Subtree(nodes[0]), Preorder(nodes[1..]), parse);
    }
  }

  lemma {:induction false} TallyNodeCountsSubtree(node: Json, parse: Parser)
    requires TallyNode(node, parse).Ok?
    ensures TallyNode(node, parse).value.sets + TallyNode(node, parse).value.modules == |Subtree(node)|
    ensures TallyNode(node, parse).value.sets == SetNodes(Subtree(node))
    ensures TallyNode(node, parse).value.videos == VideoNodes(Subtree(node))
    ensures TallyNode(node, parse).value.attachments == AttachmentNodes(Subtree(node), parse)
    decreases Size(node), 0, 0
  {
    OwnTallyRules(node, parse);
    ChildrenSmaller(node);
    var kids := Children(node).value;
    TallyNodesCountsEveryNode(kids, parse);
    CountsAppend([node], Preorder(kids), parse);
  }

  /** Counting a forest of `n` nodes reports at most `n` videos. */
  lemma {:induction false} VideoNodesBound(ns: seq<Json>)
    ensures VideoNodes(ns) <= |ns|
    ensures SetNodes(ns) <= |ns|
  {
    if ns != [] {
      VideoNodesBound(ns[1..]);
    }
  }

  // ---------------------------------------------------------------------
  // Courses and the reply

  /** A course without `details`, or whose details lack `hierarchy`,
      contributes nothing. */
  lemma CourseWithoutHierarchy(course: Json, parse: Parser)
    requires course.JObj?
    requires !HasKey(course.fields, "details")
             || (var d := Lookup(course.fields, "details").value; d.JObj? && !HasKey(d.fields, "hierarchy"))
    ensures TallyCourse(course, parse) == Ok(Zero)
  {
  }

  /** Every node of every course's hierarchy, course after course, each
      hierarchy depth first. */
  function CourseForest(courses: seq<Json>): seq<Json>
  {
    if courses == [] then []
    else
      (if CourseNodes(courses[0]).Ok? then Preorder(CourseNodes(courses[0]).value) else [])
      + CourseForest(courses[1..])
  }

  /** On success the course loop counted every node of every course's
      hierarchy exactly once, with the same censuses as for one forest. */
  lemma {:induction false} TallyCoursesCountsEveryNode(courses: seq<Json>, parse: Parser)
    requires TallyCourses(courses, parse).Ok?
    ensures TallyCourses(courses, parse).value.sets + TallyCourses(courses, parse).value.modules
            == |CourseForest(courses)|
    ensures TallyCourses(courses, parse).value.sets == SetNodes(CourseForest(courses))
    ensures TallyCourses(courses, parse).value.videos == VideoNodes(CourseForest(courses))
    ensures TallyCourses(courses, parse).value.attachments == AttachmentNodes(CourseForest(courses), parse)
  {
    if courses != [] {
      var nodes := CourseNodes(courses[0]).value;
      TallyNodesCountsEveryNode(nodes, parse);
      TallyCoursesCountsEveryNode(courses[1..], parse);
      CountsAppend(Preorder(nodes), CourseForest(courses[1..]), parse);
    }
  }

  /** A reply over a parsed map reports, in `sets + modules`, the number of
      nodes of all course hierarchies, and in `sets`, `videos` and
      `attachments` the censuses of those nodes. */
  lemma ReplyCountsEveryNode(settings: Json, data: Json, parse: Parser)
    requires MapReply(settings, data, parse).Ok?
    ensures data.JObj? && PyIter(GetOr(data.fields, "courses", EmptyArr)).Ok?
    ensures var forest := CourseForest(PyIter(GetOr(data.fields, "courses", EmptyArr)).value);
            var r := MapReply(settings, data, parse).value;
            r.sets.Some? && r.sets.value + r.modules == |forest|
            && r.sets.value == SetNodes(forest)
            && r.videos == VideoNodes(forest)
            && r.attachments == AttachmentNodes(forest, parse)
  {
    TallyCoursesCountsEveryNode(PyIter(GetOr(data.fields, "courses", EmptyArr)).value, parse);
  }

  /** With no map file nothing is walked: every count is zero, `sets` is
      absent and `has_settings` is the truth of the stored target URL. */
  lemma MissingMapReply(settingsFile: Document, baseDir: string, parse: Parser)
    requires !settingsFile.Malformed?
    ensures var settings := Settings.GetSettings(settingsFile, baseDir).value;
            var r := StatsAsWritten(settingsFile, baseDir, Missing, parse);
            (settings.JObj? ==>
               r.Ok? && r.value.courses == 0 && r.value.modules == 0 && r.value.videos == 0
               && r.value.attachments == 0 && r.value.sets.None?
               && r.value.targetUrl == GetOr(settings.fields, "target_url", JNull)
               && (r.value.hasSettings <==> PyTruthy(GetOr(settings.fields, "target_url", JNull))))
            && (!settings.JObj? ==> r == Err(AttributeError))
  {
  }

  /** Without a settings file the default target URL is empty, so the
      dashboard reports that no settings exist. */
  lemma DefaultsHaveNoTarget(baseDir: string, mapFile: Document, parse: Parser)
    requires StatsAsWritten(Missing, baseDir, mapFile, parse).Ok?
    ensures !StatsAsWritten(Missing, baseDir, mapFile, parse).value.hasSettings
    ensures StatsAsWritten(Missing, baseDir, mapFile, parse).value.targetUrl == JStr("")
  {
    assert HasKey(Settings.Defaults(baseDir), "target_url");
  }

  // ---------------------------------------------------------------------
  // The attachment merge

  /** `xs` can be obtained from `ys` by dropping elements. */
  predicate IsSubsequence(xs: seq<Json>, ys: seq<Json>)
    decreases |ys|
  {
    if ys == [] then xs == []
    else (xs != [] && xs[0] == ys[0] && IsSubsequence(xs[1..], ys[1..])) || IsSubsequence(xs, ys[1..])
  }

  /** When every collected entry is a dictionary, the scan answers whether
      one of them carries the URL under `link` or `url`. */
  lemma {:induction false} AnyMatchIff(all: seq<Json>, url: Json)
    requires forall i :: 0 <= i < |all| ==> all[i].JObj?
    ensures AnyMatch(all, url).Ok?
    ensures AnyMatch(all, url).value <==> exists i :: 0 <= i < |all| && PyEq(EntryUrl(all[i]).value, url)
  {
    if all != [] {
      AnyMatchIff(all[1..], url);
      if exists i :: 0 <= i < |all| && PyEq(EntryUrl(all[i]).value, url) {
        var i :| 0 <= i < |all| && PyEq(EntryUrl(all[i]).value, url);
        if i > 0 { assert all[1..][i - 1] == all[i]; }
      }
    }
  }

  /** A scan that found nothing looked at every entry: all of them are
      dictionaries and none carries the URL. */
  lemma {:induction false} AnyMatchFalse(all: seq<Json>, url: Json)
    requires AnyMatch(all, url) == Ok(false)
    ensures forall i :: 0 <= i < |all| ==> all[i].JObj? && !PyEq(EntryUrl(all[i]).value, url)
  {
    if all != [] {
      AnyMatchFalse(all[1..], url);
      assert forall i :: 1 <= i < |all| ==> all[i] == all[1..][i - 1];
    }
  }

  /** The merge keeps the collected entries in front, in order, and adds at
      most one entry per hit, so `|seed| <= count <= |seed| + |hits|`. */
  lemma {:induction false} MergeKeepsSeed(all: seq<Json>, hits: seq<Json>)
    requires Merge(all, hits).Ok?
    ensures |all| <= |Merge(all, hits).value| <= |all| + |hits|
    ensures Merge(all, hits).value[..|all|] == all
    ensures IsSubsequence(Merge(all, hits).value[|all|..], hits)
    decreases |hits|
  {
    if hits != [] {
      var u := HitUrl(hits[0]).value;
      if !PyTruthy(u) || AnyMatch(all, u).value {
        MergeKeepsSeed(all, hits[1..]);
      } else {
        var next := all + [hits[0]];
        MergeKeepsSeed(next, hits[1..]);
        var m := Merge(all, hits).value;
        assert m[..|next|][..|all|] == m[..|all|];
        assert m[|all|..][0] == hits[0] && m[|all|..][1..] == m[|next|..];
      }
    }
  }

  /** Every appended hit had a truthy URL (`url`, else `link`) that no entry
      before it, seed or earlier hit, carried under `link` or `url`: the
      appended hits are deduplicated against the seed and against each
      other. */
  lemma {:induction false} MergeAppendsOnlyNewUrls(all: seq<Json>, hits: seq<Json>, j: nat)
    requires Merge(all, hits).Ok?
    requires |all| <= j < |Merge(all, hits).value|
    ensures HitUrl(Merge(all, hits).value[j]).Ok?
    ensures PyTruthy(HitUrl(Merge(all, hits).value[j]).value)
    ensures forall i :: 0 <= i < j ==>
              Merge(all, hits).value[i].JObj?
              && !PyEq(EntryUrl(Merge(all, hits).value[i]).value, HitUrl(Merge(all, hits).value[j]).value)
    decreases |hits|
  {
    MergeKeepsSeed(all, hits);
    var m := Merge(all, hits).value;
    var u := HitUrl(hits[0]).value;
    if !PyTruthy(u) || AnyMatch(all, u).value {
      MergeAppendsOnlyNewUrls(all, hits[1..], j);
    } else {
      var next := all + [hits[0]];
      MergeKeepsSeed(next, hits[1..]);
      if j == |all| {
        assert m[..|next|] == next;
        assert m[j] == hits[0];
        AnyMatchFalse(all, u);
        assert forall i :: 0 <= i < j ==> m[i] == all[i];
      } else {
        MergeAppendsOnlyNewUrls(next, hits[1..], j);
      }
    }
  }

  /** A scan that found a match stopped at an entry carrying the URL. */
  lemma {:induction false} AnyMatchTrue(all: seq<Json>, url: Json)
    requires AnyMatch(all, url) == Ok(true)
    ensures Carried(all, url)
  {
    if PyEq(EntryUrl(all[0]).value, url) {
      assert all[0].JObj?;
    } else {
      AnyMatchTrue(all[1..], url);
      var i :| 0 <= i < |all[1..]| && all[1..][i].JObj? && PyEq(EntryUrl(all[1..][i]).value, url);
      assert all[i + 1] == all[1..][i];
    }
  }

  /** Some collected entry is a dictionary carrying `url` under `link` or
      `url`. */
  predicate Carried(all: seq<Json>, url: Json)
  {
    exists i :: 0 <= i < |all| && all[i].JObj? && PyEq(EntryUrl(all[i]).value, url)
  }

  /** Every collected entry is a dictionary and none carries `url`. */
  predicate NoneCarries(all: seq<Json>, url: Json)
  {
    forall i :: 0 <= i < |all| ==> all[i].JObj? && !PyEq(EntryUrl(all[i]).value, url)
  }

  /** Merging two runs of hits is merging the first, then the second into
      its result. */
  lemma {:induction false} MergeConcat(all: seq<Json>, xs: seq<Json>, ys: seq<Json>)
    ensures Merge(all, xs + ys)
            == (if Merge(all, xs).Err? then Err(Merge(all, xs).error) else Merge(Merge(all, xs).value, ys))
    decreases |xs|
  {
    if xs == [] {
      assert xs + ys == ys;
    } else {
      assert (xs + ys)[0] == xs[0] && (xs + ys)[1..] == xs[1..] + ys;
      var u := HitUrl(xs[0]);
      if u.Ok? && !PyTruthy(u.value) {
        MergeConcat(all, xs[1..], ys);
      } else if u.Ok? && AnyMatch(all, u.value).Ok? {
        MergeConcat(if AnyMatch(all, u.value).value then all else all + [xs[0]], xs[1..], ys);
      }
    }
  }

  /** Each hit in turn, against the list collected before it: a hit with a
      truthy URL that no collected entry carries is appended, and a hit
      whose URL is falsy or already carried is skipped. Whichever happens,
      the list reached so far is a prefix of the final list. */
  lemma MergeKeepsEveryNewUrl(all: seq<Json>, hits: seq<Json>, j: nat)
    requires Merge(all, hits).Ok? && j < |hits|
    ensures Merge(all, hits[..j]).Ok? && HitUrl(hits[j]).Ok? && Merge(all, hits[..j + 1]).Ok?
    ensures Merge(all, hits[..j + 1]).value <= Merge(all, hits).value
    ensures PyTruthy(HitUrl(hits[j]).value) ==>
              NoneCarries(Merge(all, hits[..j]).value, HitUrl(hits[j]).value)
              || Carried(Merge(all, hits[..j]).value, HitUrl(hits[j]).value)
    ensures PyTruthy(HitUrl(hits[j]).value) && NoneCarries(Merge(all, hits[..j]).value, HitUrl(hits[j]).value) ==>
              Merge(all, hits[..j + 1]).value == Merge(all, hits[..j]).value + [hits[j]]
    ensures !PyTruthy(HitUrl(hits[j]).value) || Carried(Merge(all, hits[..j]).value, HitUrl(hits[j]).value) ==>
              Merge(all, hits[..j + 1]).value == Merge(all, hits[..j]).value
  {
    assert hits == hits[..j] + hits[j..];
    MergeConcat(all, hits[..j], hits[j..]);
    var before := Merge(all, hits[..j]).value;
    assert hits[..j + 1] == hits[..j] + [hits[j]];
    MergeConcat(all, hits[..j], [hits[j]]);
    assert hits[j..] == [hits[j]] + hits[j + 1..];
    MergeConcat(before, [hits[j]], hits[j + 1..]);
    var after := Merge(before, [hits[j]]).value;
    MergeKeepsSeed(after, hits[j + 1..]);
    assert [hits[j]][1..] == [];
    var u := HitUrl(hits[j]).value;
    if PyTruthy(u) {
      if AnyMatch(before, u).value {
        AnyMatchTrue(before, u);
        assert !NoneCarries(before, u);
      } else {
        AnyMatchFalse(before, u);
        assert !Carried(before, u);
      }
    }
  }

  /** When every seed entry and every hit is a dictionary the merge cannot
      raise. */
  lemma {:induction false} MergeTotal(all: seq<Json>, hits: seq<Json>)
    requires forall i :: 0 <= i < |all| ==> all[i].JObj?
    requires forall i :: 0 <= i < |hits| ==> hits[i].JObj?
    ensures Merge(all, hits).Ok?
    decreases |hits|
  {
    if hits != [] {
      var u := HitUrl(hits[0]).value;
      AnyMatchIff(all, u);
      assert forall i :: 1 <= i < |hits| ==> hits[i] == hits[1..][i - 1];
      if PyTruthy(u) && !AnyMatch(all, u).value {
        MergeTotal(all + [hits[0]], hits[1..]);
      } else {
        MergeTotal(all, hits[1..]);
      }
    }
  }

  // ---------------------------------------------------------------------
  // The seed

  /** Which value seeds the list: a truthy `attachments`, else `resources`
      when that key exists, else the falsy `attachments` value or `[]`. A
      list is taken as it is; a string is decoded, and one that does not
      decode gives the empty list rather than an error. */
  lemma SeedRules(meta: seq<Field>, parse: Parser)
    ensures PyTruthy(GetOr(meta, "attachments", EmptyArr)) ==>
              SeedValue(meta) == Lookup(meta, "attachments").value
    ensures !PyTruthy(GetOr(meta, "attachments", EmptyArr)) && HasKey(meta, "resources") ==>
              SeedValue(meta) == Lookup(meta, "resources").value
    ensures !HasKey(meta, "attachments") && !HasKey(meta, "resources") ==> Seed(meta, parse) == Ok([])
    ensures SeedValue(meta).JArr? ==> Seed(meta, parse) == Ok(SeedValue(meta).items)
    ensures SeedValue(meta).JStr? && parse(SeedValue(meta).s).None? ==> Seed(meta, parse) == Ok([])
    ensures SeedValue(meta).JStr? && parse(SeedValue(meta).s).Some? ==>
              Seed(meta, parse) == PyIter(parse(SeedValue(meta).s).value)
  {
  }

  // ---------------------------------------------------------------------
  // The course count

  /** As written, a successful reply over a parsed map reports twice the
      number of course entries: `len(courses)` to start with, then one more
      per course walked. */
  lemma CoursesCountedTwice(settingsFile: Document, baseDir: string, data: Json, parse: Parser)
    requires StatsAsWritten(settingsFile, baseDir, Parsed(data), parse).Ok?
    ensures data.JObj? && PyIter(GetOr(data.fields, "courses", EmptyArr)).Ok?
    ensures StatsAsWritten(settingsFile, baseDir, Parsed(data), parse).value.courses
            == 2 * |PyIter(GetOr(data.fields, "courses", EmptyArr)).value|
  {
  }

  /** A course that is an empty dictionary has an empty hierarchy. */
  lemma EmptyCourseTally(parse: Parser)
    ensures TallyCourses([EmptyObj], parse) == Ok(Zero)
  {
    assert CourseNodes(EmptyObj) == Ok([]);
    assert [EmptyObj][1..] == [];
  }

  /** The reply over a map holding a single course whose walk succeeds. */
  lemma {:induction false} OneCourseReply(settings: Json, course: Json, parse: Parser)
    requires settings.JObj? && TallyCourses([course], parse).Ok?
    ensures MapReply(settings, JObj([Field("courses", JArr([course]))]), parse).Ok?
    ensures MapReply(settings, JObj([Field("courses", JArr([course]))]), parse).value.courses == 2
  {
    var data := JObj([Field("courses", JArr([course]))]);
    assert GetOr(data.fields, "courses", EmptyArr) == JArr([course]);
  }

  /** A map with one course, an empty dictionary, is reported as holding
      two courses, whatever the settings directory. */
  lemma OneCourseReportedAsTwo(baseDir: string, parse: Parser)
    ensures StatsAsWritten(Missing, baseDir, Parsed(JObj([Field("courses", JArr([EmptyObj]))])), parse).Ok?
    ensures StatsAsWritten(Missing, baseDir, Parsed(JObj([Field("courses", JArr([EmptyObj]))])), parse).value.courses == 2
  {
    EmptyCourseTally(parse);
    OneCourseReply(JObj(Settings.Defaults(baseDir)), EmptyObj, parse);
    DefaultSettingsReply(baseDir, JObj([Field("courses", JArr([EmptyObj]))]), parse);
  }

  /** Without a settings file, a parsed map is counted against the
      defaults. */
  lemma DefaultSettingsReply(baseDir: string, data: Json, parse: Parser)
    ensures StatsAsWritten(Missing, baseDir, Parsed(data), parse)
            == MapReply(JObj(Settings.Defaults(baseDir)), data, parse)
  {
  }

  /** Corrected, the reply reports each course entry once and agrees with
      the reply as written everywhere else. */
  lemma CoursesCountedOnce(settingsFile: Document, baseDir: string, mapFile: Document, parse: Parser)
    ensures StatsCorrected(settingsFile, baseDir, mapFile, parse).Ok?
            <==> StatsAsWritten(settingsFile, baseDir, mapFile, parse).Ok?
    ensures StatsCorrected(settingsFile, baseDir, mapFile, parse).Ok? ==>
              var fixed := StatsCorrected(settingsFile, baseDir, mapFile, parse).value;
              var written := StatsAsWritten(settingsFile, baseDir, mapFile, parse).value;
              fixed == written.(courses := fixed.courses)
              && (mapFile.Parsed? ==>
                    fixed.courses == |PyIter(GetOr(mapFile.content.fields, "courses", EmptyArr)).value|)
              && (mapFile.Missing? ==> fixed.courses == 0)
  {
  }
}
