# Skool scraper: course map and dashboard statistics

This project models the two pieces of logic of the Skool scraper that work on
its course map. The map is nested: `courses`, then `details.hierarchy`, then
nodes with `unitType`, `children` and `metadata`.

- **The mapper** (`tools/mapper.py`) does five things:
  - It derives the classroom URL from the configured target.
  - It skips the courses the account cannot open.
  - It builds each course's skeleton in the browser. This is the `build` script, and every node starts with `{}` as its metadata.
  - It walks the skeleton with `deep_scan_list`. The walk descends only through nodes that are not modules, so a module nested under another module is never reached. Every module it reaches gets its metadata replaced in place by the object the script returns on the module's page. When opening the page or running the script raises, the module keeps its `{}`.
  - The per-page script finds the module's record in the page's structured state (`findMeta`) and copies its metadata. It adds the resource links found under the `Resources` heading and on allow-listed hosts. It falls back to the rendered description when `desc` is missing.
- **The dashboard** (`dashboard/app.py`) does two things:
  - It serves the settings. It shows defaults when there is no settings file, and saving merges the posted keys over the stored ones.
  - It serves statistics over the stored map:
    - It counts courses, sets, modules, videos and attachments.
    - A node's attachments are its structured list: `attachments`, else `resources`, decoded when it is a JSON string.
    - The node's scraped `resource_links` are merged into that list, skipping the links whose URL is already present.

The model is organized by module:

- **JSON values.** `JsonValues` holds JSON values, with objects as ordered association lists. It also gives Python's and JavaScript's readings of them as functions: `get`, subscripts, iteration, truthiness, `==` and `===`. A Python exception becomes an `Err` result.
- **Text.** `Text` holds the string operations the core uses.
- **Classes.**
  - The settings file the save endpoint rewrites is the class `Settings.SettingsStore`.
  - The `stats` dictionary that `count_nodes` increments is the class `Stats.StatsCounter`.
  - The skeleton whose metadata `deep_scan_list` overwrites is a graph of `DeepScan.MapNode` objects.
- **Specifications.** Each method is specified by a function: `TallyNodes`, `Merge`, `AddHostLinks`, `Extract`, `Reached`. The source's promises are proved about those functions as lemmas.

## Model

| member | source | states |
|---|---|---|
| JsonValues.PyEqReflexive | dashboard/app.py:138 | Every value is `==` to itself under the model of Python's `==`. |
| JsonValues.PyEqExamples | dashboard/app.py:138 | Python's `==` ignores dictionary key order and equates `True` with `1` inside lists. A dictionary with an extra key is not equal. |
| Settings.Defaults | dashboard/app.py:38 | Without a settings file, `target_url` is `""` and `output_dir` is the `downloads` directory under the base directory. |
| Settings.GetSettings | dashboard/app.py:34-38 | The stored document when the file exists. The defaults when it does not. A malformed file raises. |
| Settings.UpdateLookup | dashboard/app.py:51 | After `update`, a posted key reads as its posted value and every other key reads as before. |
| Settings.UpdateKeepsKeyOrder | dashboard/app.py:51 | `update` keeps every stored key at its position and only appends. |
| Settings.SettingsStore.Save | dashboard/app.py:48-53 | Saving writes back the stored settings with the posted keys merged over them and replies `{"success": true}`. A malformed file or a non-object document raises and nothing is written. |
| Settings.SaveKeepsAndOverrides | dashboard/app.py:50-52 | Saving never loses a stored key, and every posted key ends with its posted value. |
| Stats.HitUrl | dashboard/app.py:137 | A scraped hit's URL is `url or link`, and reading it raises exactly when the hit is not a dictionary. |
| Stats.EntryUrl | dashboard/app.py:138 | A collected entry's URL is `link or url`, and reading it raises exactly when the entry is not a dictionary. |
| Stats.Children | dashboard/app.py:143 | A node's children can be read only when the node is a dictionary. |
| Stats.StatsCounter.CountOwn | dashboard/app.py:110-141 | The counters grow by one node's own tally, or the node's exception is reported. |
| Stats.StatsCounter.CountNode | dashboard/app.py:109-143 | The counters grow by the tally of the node's whole subtree, or the first exception in it is reported. `courses` is unchanged. |
| Stats.StatsCounter.CountNodes | dashboard/app.py:108-143 | The loop over a forest adds the forest's tally, or it stops at the first exception. |
| Stats.StatsCounter.CountCourse | dashboard/app.py:146-148 | A course adds one to `courses` and adds its hierarchy's tally. |
| Stats.StatsCounter.CountCourses | dashboard/app.py:145-148 | The course loop adds one per course plus every course's tally, or it reports the first exception. |
| Stats.NodeAttachments | dashboard/app.py:121-139 | The attachment list built for a node is the seed followed by the merged hits. |
| Stats.MergeHits | dashboard/app.py:134-139 | The `resource_links` loop computes the merge specified by `Merge`. |
| Stats.AnyUrlMatch | dashboard/app.py:138 | The `any` scan computes `AnyMatch`: it stops at the first match and raises on a non-dictionary entry before it. |
| Stats.GetStats | dashboard/app.py:82-150 | The endpoint returns the reply `StatsAsWritten` specifies, or it raises. |
| Stats.MapStats | dashboard/app.py:95-150 | With a map file, the reply starts from `len(courses)` and then counts every course tree. |
| Stats.CountReply | dashboard/app.py:98-150 | A counter that starts at `initial` courses yields the reply `CountedReply` specifies: `initial + len(courses)` courses and the tally of every course tree, or the first exception. |
| StatsFacts.OwnTallyRules | dashboard/app.py:110-141 | A node counts as exactly one set or one module, as a set iff `unitType == "set"`. It adds a video iff `videoLenMs or videoLink` is truthy, and it adds the length of its attachment list. |
| StatsFacts.NonDictNodeRaises | dashboard/app.py:110 | A node that is not a dictionary raises `AttributeError`. |
| StatsFacts.TallyNodesCountsEveryNode | dashboard/app.py:108-143 | Every node at every depth is counted once. `sets + modules` is the number of nodes, `sets` is the number of set nodes and `videos` is the number of nodes with a video, so never more than the nodes. `attachments` is the total size of every node's merged attachment list. |
| StatsFacts.TallyNodeCountsSubtree | dashboard/app.py:108-143 | The same counts, attachments included, hold for one node and its subtree. |
| StatsFacts.VideoNodesBound | dashboard/app.py:115-118 | The video and set counts never exceed the number of nodes. |
| StatsFacts.TallyCoursesCountsEveryNode | dashboard/app.py:145-148 | Over all courses, every node of every hierarchy is counted once. `sets + modules` is the number of those nodes, and `sets`, `videos` and `attachments` are their set, video and attachment censuses. |
| StatsFacts.ReplyCountsEveryNode | dashboard/app.py:95-150 | A reply over a parsed map reports in `sets + modules` the nodes of all course hierarchies, and in `sets`, `videos` and `attachments` their censuses. |
| StatsFacts.CourseWithoutHierarchy | dashboard/app.py:147 | A course without `details` or without `hierarchy` contributes no nodes. |
| StatsFacts.MissingMapReply | dashboard/app.py:88-93 | Without a map file, all counts are 0 and no `sets` key is present. `has_settings` is `bool(target_url)` and `target_url` is echoed. |
| StatsFacts.DefaultsHaveNoTarget | dashboard/app.py:38 | With default settings, `has_settings` is false and `target_url` is `""`. |
| StatsFacts.SeedRules | dashboard/app.py:124-130 | The seed is `attachments` when truthy, else `resources` when that key exists, else empty. A string seed is parsed, and a parse failure gives the empty list rather than an error. |
| StatsFacts.AnyMatchIff | dashboard/app.py:138 | Over dictionaries, the scan succeeds and finds a match iff some entry's `link or url` equals the URL. |
| StatsFacts.AnyMatchFalse | dashboard/app.py:138 | A scan that finds nothing saw only dictionaries, none of them with that URL. |
| StatsFacts.AnyMatchTrue | dashboard/app.py:138 | A scan that finds a match stopped at a dictionary entry whose `link or url` equals the URL. |
| StatsFacts.MergeKeepsSeed | dashboard/app.py:131-139 | The seed is kept whole, in order and first. What follows is a subsequence of the hits. So `\|seed\| <= count <= \|seed\| + \|hits\|`. |
| StatsFacts.MergeAppendsOnlyNewUrls | dashboard/app.py:137-139 | Every appended hit has a truthy URL that no earlier entry carries, whether a seed entry or an earlier hit. |
| StatsFacts.MergeConcat | dashboard/app.py:134-139 | Merging two runs of hits is merging the first run, then the second into its result. An exception in the first run ends the merge. |
| StatsFacts.MergeKeepsEveryNewUrl | dashboard/app.py:136-139 | Each hit, against the list collected before it: when its URL is truthy and no collected entry carries it, it is appended. When its URL is falsy or already carried, it is skipped. One of the two always applies, and the list so far is a prefix of the final list. |
| StatsFacts.MergeTotal | dashboard/app.py:134-139 | When seed and hits are all dictionaries, the merge never raises. |
| StatsFacts.CoursesCountedTwice | dashboard/app.py:99 | As written, a successful reply reports twice the number of course entries. |
| StatsFacts.OneCourseReply | dashboard/app.py:99-148 | As written, any map holding a single course whose walk succeeds reports `courses == 2`. |
| StatsFacts.OneCourseReportedAsTwo | dashboard/app.py:146 | As written, a map with one empty course reports `courses == 2`. |
| StatsFacts.CoursesCountedOnce | dashboard/app.py:145-146 | The corrected reply raises exactly when the written one does. It agrees with it on everything except `courses`, which is the number of course entries (0 without a map). |
| Classroom.ClassroomUrl | tools/mapper.py:20-25 | Reading the target raises exactly when it is not a string. |
| Classroom.ClassroomUrlProperties | tools/mapper.py:20-25 | The classroom URL starts with the stripped base, has no trailing `/` and contains `/classroom` once lowercased. Deriving it again from itself gives itself. |
| Classroom.EmptyTargetStops | tools/mapper.py:20-23 | An empty target, or one made only of `/`, stops the mapper before any course. |
| Classroom.Select | tools/mapper.py:36-42 | A course is read only from a dictionary with `metadata`. A kept course has a truthy slug taken from `name`. |
| Classroom.SelectCourses | tools/mapper.py:31-42 | The course loop keeps what `Selected` keeps. A course list without a length raises `TypeError`. |
| Classroom.SelectedKeepsAccessibleInOrder | tools/mapper.py:36-42 | The kept courses are exactly the ones with a slug and `hasAccess`, in input order. |
| Skeleton.JsOr | tools/mapper.py:53 | `a \|\| b` is truthy iff either operand is. |
| Skeleton.Build | tools/mapper.py:51-54 | A built node has one child per entry of the children array it read. `build` throws on `null` and on children that are not an array. |
| Skeleton.BuildAll | tools/mapper.py:53 | `map(build)` yields one node per input. |
| Skeleton.BuildKeepsNodes | tools/mapper.py:51-54 | `build` keeps every node it reaches, with its id, in depth-first order, and gives each `{}` as its metadata. |
| Skeleton.BuildAllKeepsNodes | tools/mapper.py:53-55 | The same holds for a list of nodes. |
| Skeleton.BuildTitleRule | tools/mapper.py:52-53 | The title is `metadata.title` when truthy, else `name`. Id and type come from `node.course` when it is truthy. |
| Skeleton.BuildChildrenRule | tools/mapper.py:53 | Children come from `node.children`, else from the record's `children`, else there are none. A non-array list throws. |
| Skeleton.Hierarchy | tools/mapper.py:50-55 | The script throws `TypeError` exactly when `props` is undefined or `null`, or when `course.children` is present but is not an array or one of its builds throws. A missing course or missing children give `[]`. Otherwise there is one node per child, with the ids the script reads in depth-first order. |
| Skeleton.HierarchyStartsEmpty | tools/mapper.py:55 | Every node of a returned hierarchy starts with `{}` as its metadata. |
| Extraction.PageProps | tools/mapper.py:72 | Reading `__NEXT_DATA__.props.pageProps` can fail only with a `TypeError`. |
| Extraction.FindMeta | tools/mapper.py:76-84 | `findMeta` returns only truthy values. |
| Extraction.FindMetaIsFirstRecord | tools/mapper.py:76-84 | `findMeta` returns the metadata of the first record, in depth-first key order, whose `id` is the module id and whose `metadata` is truthy. It returns null when there is none. |
| Extraction.FindInIsFirstRecord | tools/mapper.py:79-82 | The same holds for the members of an object. |
| Extraction.Spread | tools/mapper.py:86 | `{...v}` copies an object's entries, gives index keys for an array or a string, and gives nothing for a scalar. |
| Extraction.HeadingEntries | tools/mapper.py:96-104 | The links under the `Resources` heading come first, one entry each, in order and without dedup. |
| Extraction.CollectAttachments | tools/mapper.py:92-112 | The two loops build the list `AddHostLinks` specifies. |
| Extraction.FindUrl | tools/mapper.py:109 | `attachments.find` finds an entry iff one has that URL. |
| Extraction.AddHostLinksKeepsFront | tools/mapper.py:106-112 | The heading entries stay first and unchanged, and at most one entry is added per host link. |
| Extraction.AddHostLinksNoRepeat | tools/mapper.py:109-111 | No added host link repeats a URL already in the list. |
| Extraction.AddHostLinksComplete | tools/mapper.py:106-112 | Every host link's URL and every heading URL ends up in the list. |
| Extraction.AddHostLinksConcat | tools/mapper.py:106-112 | Running the allow-list loop over two runs of links is running it over the first, then over the second. |
| Extraction.AddHostLinksStep | tools/mapper.py:106-111 | Each allow-list link, against the list built before it: a new URL is pushed at the end as `{name: LinkName(l), url: l.href}`, and a present URL adds nothing. Each list built so far is a prefix of the next and of the final list, so the pushed entries follow the links' order. |
| Extraction.LinkNameRule | tools/mapper.py:108 | A host link's name is its trimmed text. When that is empty, it is the last `/`-segment of the href cut at `?`. |
| Extraction.Evaluate | tools/mapper.py:71-125 | The script, step by step, returns the object `Extract` specifies. |
| Extraction.ExtractFields | tools/mapper.py:85-122 | `resource_links` is set only when links were collected. A truthy structured `desc` is never overwritten, and a falsy one gives way to the rendered description. Every other key keeps the copied value. |
| Extraction.ExtractOutcome | tools/mapper.py:71-125 | The script throws exactly when `pageProps` cannot be read. With nothing found, it returns `{}`. |
| DeepScan.MapNode.constructor | tools/mapper.py:53 | A new node holds the given parts, and its subtree is well formed. |
| DeepScan.DeepScanList | tools/mapper.py:58-139 | In place, every module the walk reaches gets its scanned metadata. Every other node of the forest keeps its metadata. |
| DeepScan.ScanNode | tools/mapper.py:60-139 | One pass of the loop, over one node and its subtree, has the same effect. |
| DeepScan.VisitModule | tools/mapper.py:61-136 | A module gets the script's object. When the visit or the script raises, it keeps its metadata. |
| DeepScan.ReachedAreModules | tools/mapper.py:61 | Only nodes whose `unitType == 'module'` are ever rewritten. |
| DeepScan.ReachedStopsAtModules | tools/mapper.py:137-139 | The walk never descends into a module: nothing below a rewritten module is rewritten. |
| DeepScan.ReachedInListAt | tools/mapper.py:137-139 | What each tree of a folder's children reaches is reached. |
| DeepScan.ReachedListAt | tools/mapper.py:60-139 | Within one tree of a forest, the forest's walk reaches exactly what that tree's walk reaches. |
| MapFile.NodeFields | tools/mapper.py:53 | A written node's `metadata`, `children` and `unitType` read back as the skeleton's. |
| MapFile.Census | tools/mapper.py:53 | On the skeleton, sets plus modules equals the number of nodes, with no videos and no attachments. |
| MapFile.FreshNodeTally | dashboard/app.py:108-143 | The dashboard counts an unscanned skeleton node without raising, as the census of its subtree. |
| MapFile.FreshNodesTally | dashboard/app.py:108-143 | The same holds for a list of nodes. |
| MapFile.FreshCourseTally | tools/mapper.py:142 | A course entry `{title, details: {hierarchy}}` written before scanning is counted as the census of its hierarchy. |

## Left out

- I/O is not modelled:
  - The browser session, `page.goto`, `time.sleep` and the `evaluate` transport are left out.
  - The DOM queries themselves are left out. Their results are inputs to the model: the anchors under the `Resources` heading, the allow-listed anchors and the `.styled-content` HTML.
  - Writing `map.json`, reading and writing the settings and map files, and logging are left out.
- Opening the settings and map files is modelled as a document that is `Missing`, `Malformed` or `Parsed`. `json.loads` is an abstract parser parameter.
- FastAPI routing, the folder picker, the WebSocket list, the scrape and download subprocesses, the static UI and the visualizer are outside the core.
- DeepScanList: a module's page is keyed by the module id alone. The URL `course_url?md=<id>` is not built, because the visit is an input.
- The `mapper()` run as a whole is not modelled as one operation. This covers looping over courses, visiting each course page and appending `{title, details: {hierarchy}}` to `full_map`. Its parts are modelled: `SelectCourses`, `Skeleton.Hierarchy`, `DeepScanList`, `MapFile.CourseEntry`.
- Numbers are integers. Floating point is left out, and with it a `videoLenMs` that is not integral.
- JavaScript's own key order (integer-like keys first) and duplicate keys in one object are left out. Objects keep insertion order, and the last duplicate wins.
- `Text.Lower` lowercases ASCII letters only.
- `Settings.DownloadsDir` joins paths with `/` only.
- Python's `==` is modelled on whole values. `True == 1` holds at every depth, lists compare element by element, and dictionaries compare by key set and per-key values, whatever the key order. JavaScript's `===` is modelled on scalars only. Identity of distinct objects under `===` is not modelled.
- An `undefined` property reaches Python as `None`, which is modelled as `null`.
- The two URL readings differ in the source, and the model keeps both:
  - a scraped hit is read as `url or link`;
  - a collected entry is read as `link or url`;
  - the mapper compares `url` only.
- A node whose `unitType` is neither `module` nor `set` is a folder to the mapper. The dashboard counts it as a module.

## Findings

| source | as written | input that shows it | evidently intended | confidence | as-written member | corrected member |
|---|---|---|---|---|---|---|
| dashboard/app.py:99,146 | `courses` starts at `len(courses)` and the course loop adds 1 per course again | a map with one course `{}`: the reply says `courses: 2` | `courses` is the number of course entries | not executed | StatsFacts.CoursesCountedTwice, StatsFacts.OneCourseReportedAsTwo | StatsFacts.CoursesCountedOnce, Stats.StatsCorrected |
