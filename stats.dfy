/** The dashboard's statistics endpoint: a walk over every course tree of the
    stored map that counts sets, modules, videos and attachments, merging a
    node's structured attachment list with the links scraped from its page. */
module Stats {
  import opened JsonValues
  import Settings

  /** `json.loads`, which the model does not define: `None` when it raises. */
  type Parser = string -> Option<Json>

  datatype Tally = Tally(sets: nat, modules: nat, videos: nat, attachments: nat)

  const Zero := Tally(0, 0, 0, 0)

  function Plus(a: Tally, b: Tally): Tally
  {
    Tally(a.sets + b.sets, a.modules + b.modules, a.videos + b.videos, a.attachments + b.attachments)
  }

  /** Add a tally to a result unless the result is an exception. */
  function After(done: Tally, r: Result<Tally>): Result<Tally>
  {
    match r
    case Ok(t) => Ok(Plus(done, t))
    case Err(e) => Err(e)
  }

  // ---------------------------------------------------------------------
  // One node's attachments

  /** `meta.get("attachments", [])`, replaced by `meta["resources"]` when it
      is falsy and a `resources` key exists. */
  function SeedValue(meta: seq<Field>): Json
  {
    var atts := GetOr(meta, "attachments", EmptyArr);
    if !PyTruthy(atts) && HasKey(meta, "resources") then GetOr(meta, "resources", JNull) else atts
  }

  /** A string-encoded list is decoded; a string that does not parse counts
      as the empty list. */
  function Decoded(atts: Json, parse: Parser): Json
  {
    if atts.JStr? then
      match parse(atts.s)
      case Some(v) => v
      case None => EmptyArr
    else atts
  }

  /** The entries `all_atts.extend(atts)` starts the list with. */
  function Seed(meta: seq<Field>, parse: Parser): Result<seq<Json>>
  {
    PyIter(Decoded(SeedValue(meta), parse))
  }

  /** A scraped hit's URL: `r.get('url') or r.get('link')`. */
  function HitUrl(r: Json): (u: Result<Json>)
    ensures u.Ok? <==> r.JObj?
  {
    if r.JObj? then Ok(PyOr(GetOr(r.fields, "url", JNull), GetOr(r.fields, "link", JNull)))
    else Err(AttributeError)
  }

  /** A collected entry's URL: `a.get('link') or a.get('url')`. */
  function EntryUrl(a: Json): (u: Result<Json>)
    ensures u.Ok? <==> a.JObj?
  {
    if a.JObj? then Ok(PyOr(GetOr(a.fields, "link", JNull), GetOr(a.fields, "url", JNull)))
    else Err(AttributeError)
  }

  /** `any(EntryUrl(a) == url for a in all)`, which stops at the first match
      and raises at the first entry before it that is not a dictionary. */
  function AnyMatch(all: seq<Json>, url: Json): Result<bool>
  {
    if all == [] then Ok(false)
    else
      var u :- EntryUrl(all[0]);
      if PyEq(u, url) then Ok(true) else AnyMatch(all[1..], url)
  }

  /** Every hit in order is appended when its URL is truthy and no entry
      collected so far (seed or earlier hit) carries that URL. */
  function Merge(all: seq<Json>, hits: seq<Json>): Result<seq<Json>>
    decreases |hits|
  {
    if hits == [] then Ok(all)
    else
      var u :- HitUrl(hits[0]);
      if !PyTruthy(u) then Merge(all, hits[1..])
      else
        var dup :- AnyMatch(all, u);
        Merge(if dup then all else all + [hits[0]], hits[1..])
  }

  /** The attachment list counted for a node with metadata `meta`: the seed,
      then the `resource_links` hits merged into it. */
  function Attachments(meta: seq<Field>, parse: Parser): Result<seq<Json>>
  {
    var seed :- Seed(meta, parse);
    var hits :- PyIter(GetOr(meta, "resource_links", EmptyArr));
    Merge(seed, hits)
  }

  // ---------------------------------------------------------------------
  // The tree walk

  /** `node.get("unitType") == "set"`. */
  predicate IsSetNode(node: seq<Field>)
  {
    PyEq(GetOr(node, "unitType", JNull), JStr("set"))
  }

  /** `node.get("metadata", {})`, which must be a dictionary for the
      `meta.get` calls that follow. */
  function NodeMeta(node: Json): Result<seq<Field>>
  {
    if !node.JObj? then Err(AttributeError)
    else
      var meta := GetOr(node.fields, "metadata", EmptyObj);
      if meta.JObj? then Ok(meta.fields) else Err(AttributeError)
  }

  /** `meta.get("videoLenMs") or meta.get("videoLink")` is truthy. */
  predicate HasVideo(meta: seq<Field>)
  {
    PyTruthy(PyOr(GetOr(meta, "videoLenMs", JNull), GetOr(meta, "videoLink", JNull)))
  }

  /** What one node adds by itself, before its children are walked. */
  function OwnTally(node: Json, parse: Parser): Result<Tally>
  {
    var meta :- NodeMeta(node);
    var all :- Attachments(meta, parse);
    var isSet := IsSetNode(node.fields);
    Ok(Tally(if isSet then 1 else 0, if isSet then 0 else 1, if HasVideo(meta) then 1 else 0, |all|))
  }

  /** `node.get("children", [])`, iterated. */
  function Children(node: Json): (r: Result<seq<Json>>)
    ensures r.Ok? ==> node.JObj?
  {
    var kids :- PyGet(node, "children", EmptyArr);
    PyIter(kids)
  }

  /** A node's children weigh less than the node. */
  lemma ChildrenSmaller(node: Json)
    requires Children(node).Ok?
    ensures SizeSeq(Children(node).value) < Size(node)
  {
    var kids := PyGet(node, "children", EmptyArr).value;
    PyIterSmaller(kids);
    if HasKey(node.fields, "children") {
      PyGetSmaller(node, "children", EmptyArr);
    }
  }

  /** One pass of the `count_nodes` loop: the node itself, then its
      children's forest. */
  function TallyNode(node: Json, parse: Parser): Result<Tally>
    decreases Size(node), 0, 0
  {
    var own :- OwnTally(node, parse);
    var kids :- Children(node);
    ChildrenSmaller(node);
    var below :- TallyNodes(kids, parse);
    Ok(Plus(own, below))
  }

  /** `count_nodes(nodes)`: each node with its subtree, then its siblings;
      the first exception ends the walk. */
  function TallyNodes(nodes: seq<Json>, parse: Parser): Result<Tally>
    decreases SizeSeq(nodes), 1, |nodes|
  {
    if nodes == [] then Ok(Zero)
    else
      var t :- TallyNode(nodes[0], parse);
      After(t, TallyNodes(nodes[1..], parse))
  }

  /** `course.get("details", {}).get("hierarchy", [])`, iterated. */
  function CourseNodes(course: Json): Result<seq<Json>>
  {
    var details :- PyGet(course, "details", EmptyObj);
    var hierarchy :- PyGet(details, "hierarchy", EmptyArr);
    PyIter(hierarchy)
  }

  /** One pass of the course loop: the course's hierarchy, walked. */
  function TallyCourse(course: Json, parse: Parser): Result<Tally>
  {
    var nodes :- CourseNodes(course);
    TallyNodes(nodes, parse)
  }

  /** The course loop: each course's hierarchy in turn. */
  function TallyCourses(courses: seq<Json>, parse: Parser): Result<Tally>
  {
    if courses == [] then Ok(Zero)
    else
      var t :- TallyCourse(courses[0], parse);
      After(t, TallyCourses(courses[1..], parse))
  }

  lemma ZeroPlus(t: Tally)
    ensures Plus(Zero, t) == t
  {
  }

  /** Adding a tally to a finished walk that found nothing more. */
  lemma AfterDone(done: Tally, r: Result<Tally>)
    requires r == Ok(Zero)
    ensures After(done, r) == Ok(done)
  {
  }

  lemma AfterZero(r: Result<Tally>)
    ensures After(Zero, r) == r
  {
  }

  lemma AfterAfter(a: Tally, b: Tally, r: Result<Tally>)
    ensures After(a, After(b, r)) == After(Plus(a, b), r)
  {
  }

  /** The first result, followed by the rest unless it was an exception. */
  function Then(first: Result<Tally>, rest: Result<Tally>): Result<Tally>
  {
    if first.Err? then Err(first.error) else After(first.value, rest)
  }

  /** One step of the course loop, at position `c`. */
  lemma TallyCoursesAt(courses: seq<Json>, c: nat, parse: Parser)
    requires c < |courses|
    ensures TallyCourses(courses[c..], parse) == Then(TallyCourse(courses[c], parse), TallyCourses(courses[c + 1..], parse))
  {
    assert courses[c..][0] == courses[c] && courses[c..][1..] == courses[c + 1..];
  }

  /** One step of the walk over a forest, at position `i`. */
  lemma TallyNodesAt(nodes: seq<Json>, i: nat, parse: Parser)
    requires i < |nodes|
    ensures TallyNodes(nodes[i..], parse) == Then(TallyNode(nodes[i], parse), TallyNodes(nodes[i + 1..], parse))
  {
    assert nodes[i..][0] == nodes[i] && nodes[i..][1..] == nodes[i + 1..];
  }

  /** Counters added in two steps grow as if added at once. */
  lemma PlusAssoc(a: Tally, b: Tally, c: Tally)
    ensures Plus(Plus(a, b), c) == Plus(a, Plus(b, c))
  {
  }

  /** The course loop's invariant, carried past the course at `c`: its
      exception ends the loop, its tally joins what was counted. */
  lemma CoursesStep(courses: seq<Json>, c: nat, done: Tally, parse: Parser)
    requires c < |courses|
    requires After(done, TallyCourses(courses[c..], parse)) == TallyCourses(courses, parse)
    ensures TallyCourse(courses[c], parse).Err? ==>
              TallyCourses(courses, parse) == Err(TallyCourse(courses[c], parse).error)
    ensures TallyCourse(courses[c], parse).Ok? ==>
              After(Plus(done, TallyCourse(courses[c], parse).value), TallyCourses(courses[c + 1..], parse))
              == TallyCourses(courses, parse)
  {
    TallyCoursesAt(courses, c, parse);
    if TallyCourse(courses[c], parse).Ok? {
      AfterAfter(done, TallyCourse(courses[c], parse).value, TallyCourses(courses[c + 1..], parse));
    }
  }

  /** The course loop's invariant once every course was counted. */
  lemma CoursesDone(courses: seq<Json>, done: Tally, parse: Parser)
    requires After(done, TallyCourses(courses[|courses|..], parse)) == TallyCourses(courses, parse)
    ensures TallyCourses(courses, parse) == Ok(done)
  {
    assert courses[|courses|..] == [];
    AfterDone(done, TallyCourses(courses[|courses|..], parse));
  }

  /** The forest loop's invariant, carried past the node at `i`. */
  lemma NodesStep(nodes: seq<Json>, i: nat, done: Tally, parse: Parser)
    requires i < |nodes|
    requires After(done, TallyNodes(nodes[i..], parse)) == TallyNodes(nodes, parse)
    ensures TallyNode(nodes[i], parse).Err? ==>
              TallyNodes(nodes, parse) == Err(TallyNode(nodes[i], parse).error)
    ensures TallyNode(nodes[i], parse).Ok? ==>
              After(Plus(done, TallyNode(nodes[i], parse).value), TallyNodes(nodes[i + 1..], parse))
              == TallyNodes(nodes, parse)
  {
    TallyNodesAt(nodes, i, parse);
    if TallyNode(nodes[i], parse).Ok? {
      AfterAfter(done, TallyNode(nodes[i], parse).value, TallyNodes(nodes[i + 1..], parse));
    }
  }

  /** The forest loop's invariant once every node was walked. */
  lemma NodesDone(nodes: seq<Json>, done: Tally, parse: Parser)
    requires After(done, TallyNodes(nodes[|nodes|..], parse)) == TallyNodes(nodes, parse)
    ensures TallyNodes(nodes, parse) == Ok(done)
  {
    assert nodes[|nodes|..] == [];
    AfterDone(done, TallyNodes(nodes[|nodes|..], parse));
  }

  // ---------------------------------------------------------------------
  // The reply

  /** The endpoint's reply; `sets` is absent when there is no map yet. */
  datatype StatsReply = StatsReply(
    courses: nat, modules: nat, videos: nat, attachments: nat,
    sets: Option<nat>, hasSettings: bool, targetUrl: Json)

  /** `get_stats()` as written. The course count starts at `len(courses)` and
      the course loop adds one per course again. */
  function StatsAsWritten(settingsFile: Document, baseDir: string, mapFile: Document, parse: Parser)
    : Result<StatsReply>
  {
    var settings :- Settings.GetSettings(settingsFile, baseDir);
    match mapFile
    case Missing =>
      var target :- PyGet(settings, "target_url", JNull);
      Ok(StatsReply(0, 0, 0, 0, None, PyTruthy(target), target))
    case Malformed => Err(DecodeError)
    case Parsed(data) => MapReply(settings, data, parse)
  }

  /** The reply built from a parsed map `data`: the course count starts at
      `len(courses)` and the course loop adds one per course again. */
  function MapReply(settings: Json, data: Json, parse: Parser): Result<StatsReply>
  {
    var coursesValue :- PyGet(data, "courses", EmptyArr);
    var initial :- PyLen(coursesValue);
    var target :- PyGet(settings, "target_url", JNull);
    CountedReply(initial, PyIter(coursesValue).value, target, parse)
  }

  /** The reply once the counters start at `initial` courses: every course
      adds one more, and the tallies of all course trees. */
  function CountedReply(initial: nat, courses: seq<Json>, target: Json, parse: Parser): Result<StatsReply>
  {
    match TallyCourses(courses, parse)
    case Err(e) => Err(e)
    case Ok(t) => Ok(Reply(initial + |courses|, t, target))
  }

  /** Once the course tally succeeds, the reply is built from the counters. */
  lemma CountedReplyOk(initial: nat, courses: seq<Json>, target: Json, parse: Parser, counted: Tally)
    requires TallyCourses(courses, parse).Ok? && counted == Plus(Zero, TallyCourses(courses, parse).value)
    ensures CountedReply(initial, courses, target, parse) == Ok(Reply(initial + |courses|, counted, target))
  {
    ZeroPlus(TallyCourses(courses, parse).value);
  }

  /** The same reply, with the course count read back from the counter. */
  lemma CountedReplyCount(initial: nat, courses: seq<Json>, target: Json, parse: Parser, n: nat, counted: Tally)
    requires CountedReply(initial, courses, target, parse) == Ok(Reply(initial + |courses|, counted, target))
    requires n == initial + |courses|
    ensures CountedReply(initial, courses, target, parse) == Ok(Reply(n, counted, target))
  {
  }

  /** The reply `get_stats` returns once the map was counted: the counters,
      the set count, and whether a target is configured. */
  function Reply(courses: nat, t: Tally, target: Json): StatsReply
  {
    StatsReply(courses, t.modules, t.videos, t.attachments, Some(t.sets), PyTruthy(target), target)
  }

  /** `get_stats()` with each course counted once: the count is the number
      of course entries the loop walks. */
  function StatsCorrected(settingsFile: Document, baseDir: string, mapFile: Document, parse: Parser)
    : Result<StatsReply>
  {
    var settings :- Settings.GetSettings(settingsFile, baseDir);
    match mapFile
    case Missing =>
      var target :- PyGet(settings, "target_url", JNull);
      Ok(StatsReply(0, 0, 0, 0, None, PyTruthy(target), target))
    case Malformed => Err(DecodeError)
    case Parsed(data) => MapReplyCorrected(settings, data, parse)
  }

  function MapReplyCorrected(settings: Json, data: Json, parse: Parser): Result<StatsReply>
  {
    var coursesValue :- PyGet(data, "courses", EmptyArr);
    var target :- PyGet(settings, "target_url", JNull);
    var courses :- PyIter(coursesValue);
    var t :- TallyCourses(courses, parse);
    Ok(StatsReply(|courses|, t.modules, t.videos, t.attachments, Some(t.sets),
                  PyTruthy(target), target))
  }

  // ---------------------------------------------------------------------
  // The imperative walk

  /** The `stats` dictionary that `count_nodes` updates in place. */
  class StatsCounter {
    var courses: nat
    var modules: nat
    var videos: nat
    var attachments: nat
    var sets: nat

    constructor (courses: nat)
      ensures this.courses == courses
      ensures modules == 0 && videos == 0 && attachments == 0 && sets == 0
    {
      this.courses := courses;
      modules, videos, attachments, sets := 0, 0, 0, 0;
    }

    function Counted(): Tally
      reads this
    {
      Tally(sets, modules, videos, attachments)
    }

    /** The course loop of `get_stats`: one more course, then its hierarchy
        walked by `count_nodes`. */
    method CountCourses(courses: seq<Json>, parse: Parser) returns (raised: Option<Error>)
      modifies this
      ensures TallyCourses(courses, parse).Ok? ==>
                raised == None && Counted() == Plus(old(Counted()), TallyCourses(courses, parse).value)
                && this.courses == old(this.courses) + |courses|
      ensures TallyCourses(courses, parse).Err? ==> raised == Some(TallyCourses(courses, parse).error)
    {
      ghost var done := Zero;
      AfterZero(TallyCourses(courses, parse));
      assert courses[0..] == courses;
      var c := 0;
      while c < |courses|
        invariant 0 <= c <= |courses|
        invariant After(done, TallyCourses(courses[c..], parse)) == TallyCourses(courses, parse)
        invariant Counted() == Plus(old(Counted()), done)
        invariant this.courses == old(this.courses) + c
      {
        CoursesStep(courses, c, done, parse);
        raised := CountCourse(courses[c], parse);
        if raised.Some? {
          return;
        }
        ghost var t := TallyCourse(courses[c], parse).value;
        PlusAssoc(old(Counted()), done, t);
        done := Plus(done, t);
        c := c + 1;
      }
      CoursesDone(courses, done, parse);
      raised := None;
    }

    /** One pass of the course loop: the course is counted, then its
        hierarchy walked. */
    method CountCourse(course: Json, parse: Parser) returns (raised: Option<Error>)
      modifies this
      ensures courses == old(courses) + 1
      ensures TallyCourse(course, parse).Ok? ==>
                raised == None && Counted() == Plus(old(Counted()), TallyCourse(course, parse).value)
      ensures TallyCourse(course, parse).Err? ==> raised == Some(TallyCourse(course, parse).error)
    {
      courses := courses + 1;
      var nodes := CourseNodes(course);
      if nodes.Err? { return Some(nodes.error); }
      raised := CountNodes(nodes.value, parse);
    }

    /** `count_nodes(nodes)`: on success every counter grew by the tally of
        the forest `nodes`; otherwise the exception is reported. */
    method CountNodes(nodes: seq<Json>, parse: Parser) returns (raised: Option<Error>)
      modifies this
      decreases SizeSeq(nodes), 1
      ensures TallyNodes(nodes, parse).Ok? ==>
                raised == None && Counted() == Plus(old(Counted()), TallyNodes(nodes, parse).value)
      ensures TallyNodes(nodes, parse).Err? ==> raised == Some(TallyNodes(nodes, parse).error)
      ensures courses == old(courses)
    {
      ghost var done := Zero;
      AfterZero(TallyNodes(nodes, parse));
      assert nodes[0..] == nodes;
      var i := 0;
      while i < |nodes|
        invariant 0 <= i <= |nodes|
        invariant After(done, TallyNodes(nodes[i..], parse)) == TallyNodes(nodes, parse)
        invariant Counted() == Plus(old(Counted()), done)
        invariant courses == old(courses)
      {
        NodesStep(nodes, i, done, parse);
        SizeSeqElement(nodes, i);
        raised := CountNode(nodes[i], parse);
        if raised.Some? {
          return;
        }
        ghost var t := TallyNode(nodes[i], parse).value;
        PlusAssoc(old(Counted()), done, t);
        done := Plus(done, t);
        i := i + 1;
      }
      NodesDone(nodes, done, parse);
      raised := None;
    }

    /** One pass of the `count_nodes` loop: the node's own counts, then the
        recursive call on its children. */
    method CountNode(node: Json, parse: Parser) returns (raised: Option<Error>)
      modifies this
      decreases Size(node), 0
      ensures TallyNode(node, parse).Ok? ==>
                raised == None && Counted() == Plus(old(Counted()), TallyNode(node, parse).value)
      ensures TallyNode(node, parse).Err? ==> raised == Some(TallyNode(node, parse).error)
      ensures courses == old(courses)
    {
      raised := CountOwn(node, parse);
      if raised.Some? { return; }
      var kids := Children(node);
      if kids.Err? { return Some(kids.error); }
      ChildrenSmaller(node);
      raised := CountNodes(kids.value, parse);
    }

    /** The body of the `count_nodes` loop for one node, up to the recursive
        call: each counter grows by what the node adds by itself. */
    method CountOwn(node: Json, parse: Parser) returns (raised: Option<Error>)
      modifies this
      ensures OwnTally(node, parse).Ok? ==>
                raised == None && Counted() == Plus(old(Counted()), OwnTally(node, parse).value)
      ensures OwnTally(node, parse).Err? ==> raised == Some(OwnTally(node, parse).error)
      ensures courses == old(courses)
    {
      if !node.JObj? { return Some(AttributeError); }
      if IsSetNode(node.fields) { sets := sets + 1; } else { modules := modules + 1; }
      var meta := NodeMeta(node);
      if meta.Err? { return Some(meta.error); }
      if HasVideo(meta.value) { videos := videos + 1; }
      var all := NodeAttachments(meta.value, parse);
      if all.Err? { return Some(all.error); }
      attachments := attachments + |all.value|;
      return None;
    }
  }

  /** `all_atts` built for one node: extended by the seed, then grown by the
      `resource_links` loop. */
  method NodeAttachments(meta: seq<Field>, parse: Parser) returns (r: Result<seq<Json>>)
    ensures r == Attachments(meta, parse)
  {
    var allAtts: seq<Json> := [];
    var seed := Seed(meta, parse);
    if seed.Err? { return Err(seed.error); }
    allAtts := allAtts + seed.value;
    assert allAtts == seed.value;
    var hits := PyIter(GetOr(meta, "resource_links", EmptyArr));
    if hits.Err? { return Err(hits.error); }
    r := MergeHits(allAtts, hits.value);
  }

  /** The `resource_links` loop: starting from `all`, append every hit whose
      URL is truthy and not yet collected. */
  method MergeHits(all: seq<Json>, hits: seq<Json>) returns (r: Result<seq<Json>>)
    ensures r == Merge(all, hits)
  {
    var collected := all;
    var j := 0;
    while j < |hits|
      invariant 0 <= j <= |hits|
      invariant Merge(collected, hits[j..]) == Merge(all, hits)
    {
      assert hits[j..][0] == hits[j] && hits[j..][1..] == hits[j + 1..];
      var url := HitUrl(hits[j]);
      if url.Err? { return Err(url.error); }
      if PyTruthy(url.value) {
        var dup := AnyUrlMatch(collected, url.value);
        if dup.Err? { return Err(dup.error); }
        if !dup.value { collected := collected + [hits[j]]; }
      }
      j := j + 1;
    }
    return Ok(collected);
  }

  /** The `any(...)` scan, stopping at the first entry whose URL matches. */
  method AnyUrlMatch(all: seq<Json>, url: Json) returns (r: Result<bool>)
    ensures r == AnyMatch(all, url)
  {
    var k := 0;
    while k < |all|
      invariant 0 <= k <= |all|
      invariant AnyMatch(all[k..], url) == AnyMatch(all, url)
    {
      assert all[k..][0] == all[k] && all[k..][1..] == all[k + 1..];
      var u := EntryUrl(all[k]);
      if u.Err? { return Err(u.error); }
      if PyEq(u.value, url) { return Ok(true); }
      k := k + 1;
    }
    return Ok(false);
  }

  /** `get_stats()`: with no map file the reply is all zeros; otherwise every
      course's hierarchy is walked by `count_nodes`. */
  method GetStats(settingsFile: Document, baseDir: string, mapFile: Document, parse: Parser)
    returns (r: Result<StatsReply>)
    ensures r == StatsAsWritten(settingsFile, baseDir, mapFile, parse)
  {
    var settings := Settings.GetSettings(settingsFile, baseDir);
    if settings.Err? { return Err(settings.error); }
    if mapFile.Missing? {
      var target := PyGet(settings.value, "target_url", JNull);
      if target.Err? { return Err(target.error); }
      return Ok(StatsReply(0, 0, 0, 0, None, PyTruthy(target.value), target.value));
    }
    if mapFile.Malformed? { return Err(DecodeError); }
    r := MapStats(settings.value, mapFile.content, parse);
  }

  /** The part of `get_stats()` after the map file was read. */
  method MapStats(settings: Json, data: Json, parse: Parser) returns (r: Result<StatsReply>)
    ensures r == MapReply(settings, data, parse)
  {
    var coursesValue := PyGet(data, "courses", EmptyArr);
    if coursesValue.Err? { return Err(coursesValue.error); }
    var initial := PyLen(coursesValue.value);
    if initial.Err? { return Err(initial.error); }
    var target := PyGet(settings, "target_url", JNull);
    if target.Err? { return Err(target.error); }
    r := CountReply(initial.value, PyIter(coursesValue.value).value, target.value, parse);
  }

  /** The course loop and the reply built from the counters. */
  method CountReply(initial: nat, courses: seq<Json>, target: Json, parse: Parser) returns (r: Result<StatsReply>)
    ensures r == CountedReply(initial, courses, target, parse)
  {
    var stats := new StatsCounter(initial);
    var raised := stats.CountCourses(courses, parse);
    if raised.Some? {
      assert TallyCourses(courses, parse) == Err(raised.value);
      r := Err(raised.value);
    } else {
      var n, counted := stats.courses, stats.Counted();
      CountedReplyOk(initial, courses, target, parse, counted);
      CountedReplyCount(initial, courses, target, parse, n, counted);
      r := Ok(Reply(n, counted, target));
    }
  }
}
