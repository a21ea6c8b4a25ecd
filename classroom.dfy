/** The mapper's first steps: the classroom URL derived from the configured
    target, and the rule that decides which listed courses are scanned. */
module Classroom {
  import opened JsonValues
  import opened Text

  /** What the mapper does with its configured target. */
  datatype Start = NotSet | Scan(classroomUrl: string)

  /** `base + "/classroom"` unless the lower-cased base already mentions
      `/classroom`. */
  function WithClassroom(base: string): string
  {
    if Contains(Lower(base), "/classroom") then base else base + "/classroom"
  }

  /** `config.get("target_url", "").rstrip('/')`, then the classroom URL; a
      target that is not a string has no `rstrip` and raises, and an empty
      base stops the mapper before any course is visited. */
  function ClassroomUrl(config: seq<Field>): (r: Result<Start>)
    ensures r.Err? <==> !GetOr(config, "target_url", JStr("")).JStr?
    ensures r.Err? ==> r.error == AttributeError
  {
    var target := GetOr(config, "target_url", JStr(""));
    if !target.JStr? then Err(AttributeError)
    else
      var base := RStrip(target.s, '/');
      if base == [] then Ok(NotSet) else Ok(Scan(WithClassroom(base)))
  }

  lemma LowerAppend(s: string, t: string)
    ensures Lower(s + t) == Lower(s) + Lower(t)
  {
    assert forall i :: 0 <= i < |s + t| ==> Lower(s + t)[i] == (Lower(s) + Lower(t))[i];
  }

  lemma ClassroomSuffixLower()
    ensures Lower("/classroom") == "/classroom"
  {
  }

  /** The derived URL starts with the stripped base, does not end in `/`,
      mentions `/classroom` (in any letter case) and is derived again
      unchanged: feeding it back as the target yields the same URL. */
  lemma {:induction false} ClassroomUrlProperties(config: seq<Field>)
    requires ClassroomUrl(config).Ok? && ClassroomUrl(config).value.Scan?
    ensures var target := GetOr(config, "target_url", JStr("")).s;
            var url := ClassroomUrl(config).value.classroomUrl;
            var base := RStrip(target, '/');
            base != [] && |base| <= |url| && url[..|base|] == base
            && url[|url| - 1] != '/'
            && Contains(Lower(url), "/classroom")
            && ClassroomUrl([Field("target_url", JStr(url))]) == Ok(Scan(url))
  {
    var target := GetOr(config, "target_url", JStr("")).s;
    var base := RStrip(target, '/');
    var url := WithClassroom(base);
    if !Contains(Lower(base), "/classroom") {
      LowerAppend(base, "/classroom");
      ClassroomSuffixLower();
      ContainsSuffix(Lower(base), "/classroom");
      assert url[..|base|] == base;
    }
    assert RStrip(url, '/') == url;
    assert Lookup([Field("target_url", JStr(url))], "target_url") == Some(JStr(url));
  }

  /** An empty target, or one made only of slashes, stops the mapper. */
  lemma EmptyTargetStops(config: seq<Field>)
    requires GetOr(config, "target_url", JStr("")).JStr?
    requires forall i :: 0 <= i < |GetOr(config, "target_url", JStr("")).s| ==>
               GetOr(config, "target_url", JStr("")).s[i] == '/'
    ensures ClassroomUrl(config) == Ok(NotSet)
  {
  }

  // ---------------------------------------------------------------------
  // Course selection

  /** A course the mapper scans: its title and its slug. */
  datatype Course = Course(title: Json, slug: Json)

  /** What the mapper does with one listed course: `c_meta['metadata']['title']`
      must exist (otherwise the whole run raises), and the course is skipped
      when its slug `name` or its `hasAccess` flag is falsy. */
  function Select(c: Json): (r: Result<Option<Course>>)
    ensures r.Ok? ==> c.JObj? && HasKey(c.fields, "metadata")
    ensures r.Ok? && r.value.Some? ==>
              PyTruthy(r.value.value.slug) && r.value.value.slug == GetOr(c.fields, "name", JNull)
  {
    var meta :- PySubscript(c, "metadata");
    var title :- PySubscript(meta, "title");
    var slug := GetOr(c.fields, "name", JNull);
    if !PyTruthy(slug) || !PyTruthy(GetOr(meta.fields, "hasAccess", JNull)) then Ok(None)
    else Ok(Some(Course(title, slug)))
  }

  /** The kept courses of a listing, in listing order; the first course
      without a title raises. */
  function Selected(cs: seq<Json>): Result<seq<Course>>
  {
    if cs == [] then Ok([])
    else
      var first :- Select(cs[0]);
      var rest :- Selected(cs[1..]);
      Ok((if first.Some? then [first.value] else []) + rest)
  }

  /** The courses kept so far, followed by the outcome of the rest. */
  function Prepend(kept: seq<Course>, rest: Result<seq<Course>>): Result<seq<Course>>
  {
    if rest.Err? then Err(rest.error) else Ok(kept + rest.value)
  }

  lemma PrependNothing(r: Result<seq<Course>>)
    ensures Prepend([], r) == r
  {
    if r.Ok? { assert [] + r.value == r.value; }
  }

  lemma PrependTwice(a: seq<Course>, b: seq<Course>, r: Result<seq<Course>>)
    ensures Prepend(a, Prepend(b, r)) == Prepend(a + b, r)
  {
    if r.Ok? { assert a + (b + r.value) == (a + b) + r.value; }
  }

  /** The course loop of the mapper up to the scan: `len(courses_data)` is
      taken first, then every listed course is either skipped or kept. */
  method SelectCourses(coursesData: Json) returns (r: Result<seq<Course>>)
    ensures PyLen(coursesData).Err? ==> r == Err(TypeError)
    ensures PyLen(coursesData).Ok? ==> r == Selected(PyIter(coursesData).value)
  {
    var total := PyLen(coursesData);
    if total.Err? { return Err(total.error); }
    var cs := PyIter(coursesData).value;
    var kept: seq<Course> := [];
    assert cs[0..] == cs;
    PrependNothing(Selected(cs));
    var i := 0;
    while i < |cs|
      invariant 0 <= i <= |cs|
      invariant Prepend(kept, Selected(cs[i..])) == Selected(cs)
    {
      assert cs[i..][0] == cs[i] && cs[i..][1..] == cs[i + 1..];
      var c := Select(cs[i]);
      if c.Err? { return Err(c.error); }
      var one := if c.value.Some? then [c.value.value] else [];
      PrependTwice(kept, one, Selected(cs[i + 1..]));
      kept := kept + one;
      i := i + 1;
    }
    assert cs[i..] == [];
    assert kept + [] == kept;
    return Ok(kept);
  }

  /** Selection keeps exactly the listed courses with a truthy slug and a
      truthy `hasAccess`, in listing order, and drops the others. */
  lemma {:induction false} SelectedKeepsAccessibleInOrder(cs: seq<Json>)
    requires Selected(cs).Ok?
    ensures |Selected(cs).value| <= |cs|
    ensures forall i :: 0 <= i < |cs| ==> Select(cs[i]).Ok?
    ensures Selected(cs).value == KeptInOrder(cs)
  {
    if cs != [] {
      SelectedKeepsAccessibleInOrder(cs[1..]);
      assert forall i :: 1 <= i < |cs| ==> cs[i] == cs[1..][i - 1];
    }
  }

  /** The reference: courses whose slug and access flag are truthy, each
      with its title, in listing order. */
  function KeptInOrder(cs: seq<Json>): seq<Course>
  {
    if cs == [] then []
    else
      var c := cs[0];
      var keep := c.JObj? && HasKey(c.fields, "metadata") && Lookup(c.fields, "metadata").value.JObj?
                  && PyTruthy(GetOr(c.fields, "name", JNull))
                  && PyTruthy(GetOr(Lookup(c.fields, "metadata").value.fields, "hasAccess", JNull));
      (if keep then [Course(GetOr(Lookup(c.fields, "metadata").value.fields, "title", JNull),
                            GetOr(c.fields, "name", JNull))] else [])
      + KeptInOrder(cs[1..])
  }
}
