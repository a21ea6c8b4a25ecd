/** The script the mapper runs on each module page: it finds the module's
    record in the page's structured state, copies its metadata, adds the
    resource links found in the markup and falls back to the rendered
    description. The markup queries themselves are inputs. */
module Extraction {
  import opened JsonValues
  import opened Text

  /** An anchor element: its visible text and its `href`. */
  datatype Link = Link(text: string, href: string)

  /** What one module page offers the script. `nextData` is
      `window.__NEXT_DATA__` (`None` when undefined); `headingLinks` are the
      anchors inside the element that follows the first element whose
      trimmed text is `Resources` (empty when there is none); `hostLinks` are
      the anchors whose `href` matches the host allow-list, in document
      order; `description` is the inner HTML of the first `.styled-content`
      element, if any. */
  datatype ModulePage = ModulePage(
    nextData: Option<Json>, headingLinks: seq<Link>, hostLinks: seq<Link>, description: Option<string>)

  /** An entry of the collected attachment list. */
  datatype Attachment = Attachment(name: string, url: string)

  // ---------------------------------------------------------------------
  // The structured state

  /** `window.__NEXT_DATA__.props.pageProps`; reading a property of
      `undefined` or `null` throws. `None` stands for `undefined`. */
  function PageProps(nextData: Option<Json>): (r: Result<Option<Json>>)
    ensures r.Err? ==> r.error == TypeError
  {
    if nextData.None? then Err(TypeError)
    else
      var props :- JsGet(nextData.value, "props");
      if props.None? then Err(TypeError) else JsGet(props.value, "pageProps")
  }

  /** The values a `for (k in obj)` loop reads as `obj[k]`: the items of an
      array, the values of an object. */
  function Members(obj: Json): seq<Json>
  {
    match obj
    case JArr(items) => items
    case JObj(fs) => Values(fs)
    case _ => []
  }

  function Values(fs: seq<Field>): (r: seq<Json>)
    ensures |r| == |fs|
  {
    if fs == [] then [] else [fs[0].val] + Values(fs[1..])
  }

  lemma {:induction false} ValuesSize(fs: seq<Field>)
    ensures SizeSeq(Values(fs)) == SizeFields(fs)
  {
    if fs != [] {
      ValuesSize(fs[1..]);
      assert Values(fs)[0] == fs[0].val && Values(fs)[1..] == Values(fs[1..]);
    }
  }

  lemma MembersSmaller(obj: Json)
    ensures SizeSeq(Members(obj)) < Size(obj) || Members(obj) == []
  {
    if obj.JObj? { ValuesSize(obj.fields); }
  }

  /** `obj.id === mid && obj.metadata`: the record of the module. */
  predicate IsRecordOf(obj: Json, mid: Json)
  {
    obj.JObj? && JsStrictEq(Lookup(obj.fields, "id"), mid) && JsTruthyOpt(Lookup(obj.fields, "metadata"))
  }

  /** `findMeta(obj)`: depth first, the metadata of the first record of the
      module; a record's own contents are not searched. */
  function FindMeta(obj: Json, mid: Json): (r: Option<Json>)
    decreases Size(obj), 0, 0
    ensures r.Some? ==> JsTruthy(r.value)
  {
    if !(obj.JObj? || obj.JArr?) then None
    else if IsRecordOf(obj, mid) then Lookup(obj.fields, "metadata")
    else
      MembersSmaller(obj);
      if Members(obj) == [] then None else FindIn(Members(obj), mid)
  }

  /** The loop over the members: the first search that finds something. */
  function FindIn(objs: seq<Json>, mid: Json): (r: Option<Json>)
    decreases SizeSeq(objs), 1, |objs|
    ensures r.Some? ==> JsTruthy(r.value)
  {
    if objs == [] then None
    else
      var found := FindMeta(objs[0], mid);
      if found.Some? then found else FindIn(objs[1..], mid)
  }

  /** Every record of the module, depth first, with the metadata each
      carries; as in the search, a record's own contents are not listed. */
  function Records(obj: Json, mid: Json): seq<Json>
    decreases Size(obj), 0, 0
  {
    if !(obj.JObj? || obj.JArr?) then []
    else if IsRecordOf(obj, mid) then [Lookup(obj.fields, "metadata").value]
    else
      MembersSmaller(obj);
      if Members(obj) == [] then [] else RecordsIn(Members(obj), mid)
  }

  function RecordsIn(objs: seq<Json>, mid: Json): seq<Json>
    decreases SizeSeq(objs), 1, |objs|
  {
    if objs == [] then [] else Records(objs[0], mid) + RecordsIn(objs[1..], mid)
  }

  /** The search returns the first record in depth-first order, and finds
      nothing exactly when there is no record. */
  lemma {:induction false} FindMetaIsFirstRecord(obj: Json, mid: Json)
    ensures FindMeta(obj, mid) == if Records(obj, mid) == [] then None else Some(Records(obj, mid)[0])
    decreases Size(obj), 0, 0
  {
    if (obj.JObj? || obj.JArr?) && !IsRecordOf(obj, mid) {
      MembersSmaller(obj);
      if Members(obj) != [] {
        FindInIsFirstRecord(Members(obj), mid);
      }
    }
  }

  lemma {:induction false} FindInIsFirstRecord(objs: seq<Json>, mid: Json)
    ensures FindIn(objs, mid) == if RecordsIn(objs, mid) == [] then None else Some(RecordsIn(objs, mid)[0])
    decreases SizeSeq(objs), 1, |objs|
  {
    if objs != [] {
      FindMetaIsFirstRecord(objs[0], mid);
      FindInIsFirstRecord(objs[1..], mid);
    }
  }

  /** `{ ...v }`: the own enumerable properties of `v`. An array or a string
      spreads into its indices; other scalars have none. */
  function Spread(v: Json): (r: seq<Field>)
    ensures v.JObj? ==> r == v.fields
    ensures v.JArr? ==> |r| == |v.items| && forall i :: 0 <= i < |r| ==> r[i] == Field(Decimal(i), v.items[i])
    ensures v.JStr? ==> |r| == |v.s| && forall i :: 0 <= i < |r| ==> r[i] == Field(Decimal(i), JStr([v.s[i]]))
    ensures v.JNull? || v.JBool? || v.JNum? ==> r == []
  {
    match v
    case JObj(fs) => fs
    case JArr(items) => seq(|items|, i requires 0 <= i < |items| => Field(Decimal(i), items[i]))
    case JStr(s) => seq(|s|, i requires 0 <= i < |s| => Field(Decimal(i), JStr([s[i]])))
    case _ => []
  }

  // ---------------------------------------------------------------------
  // The attachment list

  /** The entry pushed for a link under the `Resources` heading. */
  function HeadingEntry(l: Link): Attachment
  {
    Attachment(Trim(l.text), l.href)
  }

  function HeadingEntries(links: seq<Link>): (r: seq<Attachment>)
    ensures |r| == |links|
    ensures forall i :: 0 <= i < |links| ==> r[i] == HeadingEntry(links[i])
  {
    seq(|links|, i requires 0 <= i < |links| => HeadingEntry(links[i]))
  }

  /** `a.innerText.trim() || a.href.split('/').pop().split('?')[0]`. */
  function LinkName(l: Link): string
  {
    if Trim(l.text) != "" then Trim(l.text) else BeforeFirst(AfterLast(l.href, '/'), '?')
  }

  /** `attachments.find(ex => ex.url === href)` finds an entry. */
  predicate HasUrl(atts: seq<Attachment>, url: string)
  {
    exists i :: 0 <= i < |atts| && atts[i].url == url
  }

  /** The allow-list loop: each link is pushed unless an entry with its URL
      is already present. */
  function AddHostLinks(atts: seq<Attachment>, links: seq<Link>): seq<Attachment>
    decreases |links|
  {
    if links == [] then atts
    else
      var l := links[0];
      AddHostLinks(if HasUrl(atts, l.href) then atts else atts + [Attachment(LinkName(l), l.href)], links[1..])
  }

  /** The list the script collects for a page. */
  function Collected(page: ModulePage): seq<Attachment>
  {
    AddHostLinks(HeadingEntries(page.headingLinks), page.hostLinks)
  }

  /** One pass of the allow-list loop, at position `j`. */
  lemma AddHostLinksAt(atts: seq<Attachment>, links: seq<Link>, j: nat)
    requires j < |links|
    ensures AddHostLinks(atts, links[j..])
         == AddHostLinks(if HasUrl(atts, links[j].href) then atts
                         else atts + [Attachment(LinkName(links[j]), links[j].href)], links[j + 1..])
  {
    assert links[j..][0] == links[j] && links[j..][1..] == links[j + 1..];
  }

  /** The list built by the script's two `forEach` loops. */
  method CollectAttachments(headingLinks: seq<Link>, hostLinks: seq<Link>) returns (atts: seq<Attachment>)
    ensures atts == AddHostLinks(HeadingEntries(headingLinks), hostLinks)
  {
    atts := [];
    var i := 0;
    while i < |headingLinks|
      invariant 0 <= i <= |headingLinks|
      invariant |atts| == i
      invariant forall k :: 0 <= k < i ==> atts[k] == HeadingEntry(headingLinks[k])
    {
      atts := atts + [HeadingEntry(headingLinks[i])];
      i := i + 1;
    }
    assert atts == HeadingEntries(headingLinks);
    assert hostLinks[0..] == hostLinks;
    var j := 0;
    while j < |hostLinks|
      invariant 0 <= j <= |hostLinks|
      invariant AddHostLinks(atts, hostLinks[j..]) == AddHostLinks(HeadingEntries(headingLinks), hostLinks)
    {
      AddHostLinksAt(atts, hostLinks, j);
      var l := hostLinks[j];
      var name := LinkName(l);
      var present := FindUrl(atts, l.href);
      if !present {
        atts := atts + [Attachment(name, l.href)];
      }
      j := j + 1;
    }
    assert hostLinks[j..] == [];
  }

  /** `attachments.find(ex => ex.url === href)`, scanning from the front. */
  method FindUrl(atts: seq<Attachment>, url: string) returns (found: bool)
    ensures found <==> HasUrl(atts, url)
  {
    var k := 0;
    while k < |atts|
      invariant 0 <= k <= |atts|
      invariant forall i :: 0 <= i < k ==> atts[i].url != url
    {
      if atts[k].url == url { return true; }
      k := k + 1;
    }
    return false;
  }

  /** The heading links come first, in order and without deduplication;
      each allow-list link adds at most one entry. */
  lemma {:induction false} AddHostLinksKeepsFront(atts: seq<Attachment>, links: seq<Link>)
    ensures |atts| <= |AddHostLinks(atts, links)| <= |atts| + |links|
    ensures AddHostLinks(atts, links)[..|atts|] == atts
    decreases |links|
  {
    if links != [] {
      var l := links[0];
      var next := if HasUrl(atts, l.href) then atts else atts + [Attachment(LinkName(l), l.href)];
      AddHostLinksKeepsFront(next, links[1..]);
      assert AddHostLinks(atts, links)[..|next|][..|atts|] == next[..|atts|];
    }
  }

  /** No allow-list entry repeats the URL of any entry before it. */
  lemma {:induction false} AddHostLinksNoRepeat(atts: seq<Attachment>, links: seq<Link>, j: nat)
    requires |atts| <= j < |AddHostLinks(atts, links)|
    ensures forall i :: 0 <= i < j ==> AddHostLinks(atts, links)[i].url != AddHostLinks(atts, links)[j].url
    decreases |links|
  {
    AddHostLinksKeepsFront(atts, links);
    var l := links[0];
    var r := AddHostLinks(atts, links);
    if HasUrl(atts, l.href) {
      assert r == AddHostLinks(atts, links[1..]);
      AddHostLinksNoRepeat(atts, links[1..], j);
    } else {
      var next := atts + [Attachment(LinkName(l), l.href)];
      assert r == AddHostLinks(next, links[1..]);
      AddHostLinksKeepsFront(next, links[1..]);
      assert r[..|next|] == next;
      if j == |atts| {
        assert r[j] == next[j];
        forall i | 0 <= i < j ensures r[i].url != r[j].url {
          assert r[i] == next[i] == atts[i];
        }
      } else {
        AddHostLinksNoRepeat(next, links[1..], j);
      }
    }
  }

  /** Every allow-list link's URL ends up in the list, and every entry
      present before stays. */
  lemma {:induction false} AddHostLinksComplete(atts: seq<Attachment>, links: seq<Link>)
    ensures forall k :: 0 <= k < |links| ==> HasUrl(AddHostLinks(atts, links), links[k].href)
    ensures forall i :: 0 <= i < |atts| ==> HasUrl(AddHostLinks(atts, links), atts[i].url)
    decreases |links|
  {
    if links != [] {
      var l := links[0];
      var next := if HasUrl(atts, l.href) then atts else atts + [Attachment(LinkName(l), l.href)];
      AddHostLinksComplete(next, links[1..]);
      var r := AddHostLinks(atts, links);
      assert HasUrl(next, l.href) by {
        if !HasUrl(atts, l.href) { assert next[|atts|].url == l.href; }
      }
      forall k | 0 <= k < |links| ensures HasUrl(r, links[k].href) {
        if k == 0 {
          var i :| 0 <= i < |next| && next[i].url == l.href;
          assert HasUrl(next, next[i].url);
        } else {
          assert links[k] == links[1..][k - 1];
        }
      }
      forall i | 0 <= i < |atts| ensures HasUrl(r, atts[i].url) {
        assert next[i] == atts[i];
      }
    }
  }

  /** Running the loop over two runs of links is running it over the first,
      then over the second from where the first left the list. */
  lemma {:induction false} AddHostLinksConcat(atts: seq<Attachment>, xs: seq<Link>, ys: seq<Link>)
    ensures AddHostLinks(atts, xs + ys) == AddHostLinks(AddHostLinks(atts, xs), ys)
    decreases |xs|
  {
    if xs == [] {
      assert xs + ys == ys;
    } else {
      assert (xs + ys)[0] == xs[0] && (xs + ys)[1..] == xs[1..] + ys;
      var l := xs[0];
      AddHostLinksConcat(if HasUrl(atts, l.href) then atts else atts + [Attachment(LinkName(l), l.href)], xs[1..], ys);
    }
  }

  /** Each allow-list link in turn, against the list built before it: a
      link whose URL is not yet present is pushed as `{name: LinkName(l),
      url: l.href}` at the end, and one whose URL is present adds nothing.
      The lists built so far are prefixes of the final list, so the pushed
      entries follow the links' order. */
  lemma AddHostLinksStep(atts: seq<Attachment>, links: seq<Link>, j: nat)
    requires j < |links|
    ensures AddHostLinks(atts, links[..j]) <= AddHostLinks(atts, links[..j + 1]) <= AddHostLinks(atts, links)
    ensures !HasUrl(AddHostLinks(atts, links[..j]), links[j].href) ==>
              AddHostLinks(atts, links[..j + 1])
              == AddHostLinks(atts, links[..j]) + [Attachment(LinkName(links[j]), links[j].href)]
    ensures HasUrl(AddHostLinks(atts, links[..j]), links[j].href) ==>
              AddHostLinks(atts, links[..j + 1]) == AddHostLinks(atts, links[..j])
  {
    var before := AddHostLinks(atts, links[..j]);
    assert links[..j + 1] == links[..j] + [links[j]];
    AddHostLinksConcat(atts, links[..j], [links[j]]);
    AddHostLinksOne(before, links[j]);
    var after := AddHostLinks(atts, links[..j + 1]);
    assert links == links[..j + 1] + links[j + 1..];
    AddHostLinksConcat(atts, links[..j + 1], links[j + 1..]);
    AddHostLinksKeepsFront(after, links[j + 1..]);
  }

  /** The loop over a single link. */
  lemma AddHostLinksOne(atts: seq<Attachment>, l: Link)
    ensures AddHostLinks(atts, [l])
            == if HasUrl(atts, l.href) then atts else atts + [Attachment(LinkName(l), l.href)]
  {
    assert [l][1..] == [];
  }

  /** A link's name is its trimmed text when that is not empty; otherwise
      it is the last path segment of its `href` without the query, which
      contains neither `/` nor `?`. */
  lemma LinkNameRule(l: Link)
    ensures Trim(l.text) != "" ==> LinkName(l) == Trim(l.text)
    ensures Trim(l.text) == "" ==> '/' !in LinkName(l) && '?' !in LinkName(l)
    ensures Trim(l.text) == "" && '/' !in l.href && '?' !in l.href ==> LinkName(l) == l.href
  {
    if Trim(l.text) == "" {
      var seg := AfterLast(l.href, '/');
      var name := BeforeFirst(seg, '?');
      assert name == seg[..|name|];
      assert forall c :: c in name ==> c in seg;
    }
  }

  // ---------------------------------------------------------------------
  // The returned metadata

  function AttachmentJson(a: Attachment): Json
  {
    JObj([Field("name", JStr(a.name)), Field("url", JStr(a.url))])
  }

  function AttachmentsJson(atts: seq<Attachment>): (r: seq<Json>)
    ensures |r| == |atts|
  {
    seq(|atts|, i requires 0 <= i < |atts| => AttachmentJson(atts[i]))
  }

  /** `meta` after the structured copy: the module's metadata spread into a
      new object, or `{}` when no record was found. */
  function Copied(props: Option<Json>, mid: Json): seq<Field>
  {
    var found := if props.Some? then FindMeta(props.value, mid) else None;
    if found.Some? then Spread(found.value) else []
  }

  /** The object the script returns for module `mid`. */
  function Extract(page: ModulePage, mid: Json): Result<seq<Field>>
  {
    var props :- PageProps(page.nextData);
    var meta := Copied(props, mid);
    var atts := Collected(page);
    var withLinks := if |atts| > 0 then Set(meta, "resource_links", JArr(AttachmentsJson(atts))) else meta;
    if !JsTruthyOpt(Lookup(withLinks, "desc")) && page.description.Some? then
      Ok(Set(withLinks, "desc", JStr(page.description.value)))
    else Ok(withLinks)
  }

  /** The script, step by step: copy, collect, then the two conditional
      assignments to `meta`. */
  method Evaluate(page: ModulePage, mid: Json) returns (r: Result<seq<Field>>)
    ensures r == Extract(page, mid)
  {
    var props := PageProps(page.nextData);
    if props.Err? { return Err(props.error); }
    var meta: seq<Field> := [];
    var jsonMeta := if props.value.Some? then FindMeta(props.value.value, mid) else None;
    if jsonMeta.Some? { meta := Spread(jsonMeta.value); }
    var atts := CollectAttachments(page.headingLinks, page.hostLinks);
    if |atts| > 0 {
      meta := Set(meta, "resource_links", JArr(AttachmentsJson(atts)));
    }
    if !JsTruthyOpt(Lookup(meta, "desc")) && page.description.Some? {
      meta := Set(meta, "desc", JStr(page.description.value));
    }
    return Ok(meta);
  }

  /** What the returned object holds: `resource_links` is replaced only when
      links were collected; a truthy structured `desc` is never overwritten,
      a falsy one is replaced by the rendered description when there is
      one; every other key keeps the value copied from the record. */
  lemma ExtractFields(page: ModulePage, mid: Json, k: string)
    requires Extract(page, mid).Ok?
    ensures var copy := Copied(PageProps(page.nextData).value, mid);
            var meta := Extract(page, mid).value;
            var atts := Collected(page);
            (k == "resource_links" ==>
               Lookup(meta, k) == if |atts| > 0 then Some(JArr(AttachmentsJson(atts))) else Lookup(copy, k))
            && (k == "desc" && JsTruthyOpt(Lookup(copy, k)) ==> Lookup(meta, k) == Lookup(copy, k))
            && (k == "desc" && !JsTruthyOpt(Lookup(copy, k)) && page.description.Some? ==>
                  Lookup(meta, k) == Some(JStr(page.description.value)))
            && (k != "desc" && k != "resource_links" ==> Lookup(meta, k) == Lookup(copy, k))
  {
  }

  /** The script throws exactly when `window.__NEXT_DATA__.props.pageProps`
      cannot be read: `__NEXT_DATA__` is undefined or `null`, it lacks
      `props`, or its `props` is `null`. A page whose state holds no record
      of the module and shows no links nor description yields `{}`. */
  lemma ExtractOutcome(page: ModulePage, mid: Json)
    ensures Extract(page, mid).Err? <==> PageProps(page.nextData).Err?
    ensures PageProps(page.nextData).Ok? && Copied(PageProps(page.nextData).value, mid) == []
            && page.headingLinks == [] && page.hostLinks == [] && page.description.None?
            ==> Extract(page, mid) == Ok([])
  {
  }
}
